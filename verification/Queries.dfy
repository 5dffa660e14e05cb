/** Range queries over the stored records of a channel. */
module Queries {
  import opened Ordering
  import opened Records
  import opened Journal

  datatype QueryRequest = QueryRequest(channel: string, after: Option<int>, before: Option<int>, limit: nat)

  datatype LocalResult = LocalResult(records: seq<Record>, oldest: Option<int>, newest: Option<int>)

  /** Received strictly inside the requested window. */
  predicate InWindow(r: Record, request: QueryRequest) {
    && (request.after.Some? ==> r.receivedAt > request.after.value)
    && (request.before.Some? ==> r.receivedAt < request.before.value)
  }

  function Window(request: QueryRequest): Record -> bool {
    (r: Record) => InWindow(r, request)
  }

  /** The last `limit` of a sequence. */
  function Newest<T>(s: seq<T>, limit: nat): seq<T> {
    if |s| > limit then s[|s| - limit..] else s
  }

  /** What a store answers from the records it holds. */
  function Answer(all: seq<Record>, request: QueryRequest): LocalResult {
    var sorted := Sort(all, AnswerOrder());
    LocalResult(
      Newest(Filter(sorted, Window(request)), request.limit),
      if sorted == [] then None else Some(sorted[0].receivedAt),
      if sorted == [] then None else Some(sorted[|sorted| - 1].receivedAt))
  }
}
