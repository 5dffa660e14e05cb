/**
 * Durable ingest as a state machine. A SQLite transaction is one step, everything in memory is
 * wiped by a crash, and other writers of the block database act between any two steps.
 */
module Machine {
  import opened Ordering
  import opened Records
  import opened Tables
  import opened Journal
  import opened Batches
  import opened Appending

  /** The open tail: for each channel, the records waiting to be sealed into a block. */
  type Tail = map<string, seq<Record>>

  /** What the process holds in memory. */
  datatype Mem = Mem(
    tail: Tail,
    todo: seq<Record>,                // records of the current batch not yet in the tail
    current: Option<(Stream, int)>,   // stream and last sequence of the batch being materialised
    flight: seq<seq<Record>>,         // sealed batches not yet written
    through: map<Stream, int>,        // materialized_through
    replay: seq<JournalRow>)          // pending rows not yet replayed

  /**
   * History, kept by nobody: records owed to readers, records that ever arrived, events a named
   * removal took, ranges ever accepted and the base of each stream.
   */
  datatype Ledger = Ledger(
    owed: set<Record>,
    seen: set<Record>,
    lost: set<(string, EventKey)>,
    ranges: set<(Stream, int, int)>,
    bases: map<Stream, int>)

  datatype State = State(store: Store, mem: Option<Mem>, ledger: Ledger)

  datatype World = World(cfg: Config, stamp: EventKey -> int)

  datatype Act =
    // the ingest process
    | Boot
    | Begin
    | Accept(stream: Stream, first: nat, last: nat, payload: seq<Record>)
    | Push(seals: seq<string>)
    | Flush(count: nat)
    | Settle
    | Seal(seals: seq<string>)
    | Retire(stream: Stream)
    | Crash
    // other writers
    | Repair(batch: seq<Record>)
    | PurgeChannel(channel: string, receivedAt: int)
    | PurgeTail(channel: string)
    | BlockChannel(channel: string, blocked: bool)
    | SyncBlockedChannels(listed: seq<string>)
    | EvictBlocks(ids: seq<nat>)
    | DropIdleRows(cutoff: int)
    | TouchChannel(channel: string, requestedAt: int, coalesceBefore: int)

  /* ---------- the open tail ---------- */

  function TailOf(tail: Tail, channel: string): seq<Record> {
    if channel in tail then tail[channel] else []
  }

  /** A copy of a waiting event upgrades it; a new event waits at the end. */
  function TailPut(tail: Tail, r: Record): Tail {
    var list := TailOf(tail, r.channel);
    tail[r.channel := if r.key in Keys(list) then Absorb(list, [r]) else list + [r]]
  }

  ghost predicate Sealable(tail: Tail, seals: seq<string>) {
    && (forall c <- seals :: c in tail)
    && (forall i, j :: 0 <= i < j < |seals| ==> seals[i] != seals[j])
  }

  function TailWithout(tail: Tail, seals: seq<string>): Tail {
    map c | c in tail && c !in seals :: tail[c]
  }

  function SealedBatches(tail: Tail, seals: seq<string>): seq<seq<Record>>
    requires forall c <- seals :: c in tail
  {
    seq(|seals|, i requires 0 <= i < |seals| => tail[seals[i]])
  }

  /* ---------- history ---------- */

  /** Every stored event, with its channel. */
  function Events(blocks: seq<Block>): set<(string, EventKey)> {
    set b <- blocks, r <- b.records :: (b.channel, r.key)
  }

  function Arrive(l: Ledger, rs: seq<Record>): Ledger {
    l.(owed := l.owed + (set r <- rs), seen := l.seen + (set r <- rs))
  }

  /** A named removal took these events: records of theirs are no longer owed. */
  function Discharge(l: Ledger, gone: set<(string, EventKey)>): Ledger {
    l.(owed := (set r <- l.owed | (r.channel, r.key) !in gone), lost := l.lost + gone)
  }

  function Acknowledge(l: Ledger, s: Store, stream: Stream, first: int, last: int): Ledger {
    l.(ranges := l.ranges + {(stream, first, last)},
       bases := if stream in s.offsets then l.bases else l.bases[stream := first - 1])
  }

  /* ---------- steps ---------- */

  ghost predicate Quiescent(m: Mem) {
    m.todo == [] && m.current.None? && m.replay == []
  }

  function Later(through: map<Stream, int>, stream: Stream, last: int): map<Stream, int> {
    through[stream := if stream in through && through[stream] > last then through[stream] else last]
  }

  ghost function Step(w: World, s: State, act: Act): Option<State>
    requires w.cfg.Valid()
  {
    match act
    case Repair(batch) =>
      if Batch(batch, w.stamp) then
        Some(s.(store := Append(s.store, w.cfg, batch[0].channel, batch),
                ledger := Discharge(Arrive(s.ledger, batch), AppendLoss(s.store, w.cfg, batch[0].channel, batch))))
      else None
    case PurgeChannel(channel, receivedAt) => Some(Removal(s, Purge(s.store, channel, receivedAt)))
    case BlockChannel(channel, blocked) => Some(Removal(s, SetBlocked(s.store, channel, blocked)))
    case SyncBlockedChannels(listed) => Some(Removal(s, SyncBlocked(s.store, listed)))
    case EvictBlocks(ids) => Some(Removal(s, Evict(s.store, ids)))
    case DropIdleRows(cutoff) => Some(s.(store := DropIdle(s.store, cutoff)))
    case TouchChannel(channel, at, before) => Some(s.(store := Touch(s.store, channel, at, before)))
    case Boot => if s.mem.None? then Some(s.(mem := Some(Mem(map[], [], None, [], map[], Pending(s.store))))) else None
    case Crash => Some(s.(mem := None))
    case _ => if s.mem.Some? then Run(w, s, s.mem.value, act) else None
  }

  /** A step that deletes blocks: the events it deleted are lost by name. */
  function Removal(s: State, after: Store): State {
    s.(store := after, ledger := Discharge(s.ledger, Events(s.store.blocks) - Events(after.blocks)))
  }

  ghost function Run(w: World, s: State, m: Mem, act: Act): Option<State>
    requires w.cfg.Valid() && s.mem == Some(m)
  {
    match act
    case Begin =>
      if m.todo == [] && m.current.None? && m.replay != [] && w.cfg.digest(m.replay[0].payload) == m.replay[0].digest then
        var row := m.replay[0];
        Some(s.(mem := Some(m.(todo := row.payload, current := Some((row.stream, row.last)), replay := m.replay[1..]))))
      else None
    case Accept(stream, first, last, payload) =>
      if Quiescent(m) && m.flight == [] && Stamped(payload, w.stamp) then
        match AcceptJournal(s.store, w.cfg, stream, first, last, payload)
        case Err(_) => None
        case Ok(a) =>
          Some(State(a.store,
                     Some(m.(todo := payload, current := Some((stream, last)))),
                     Acknowledge(Arrive(s.ledger, payload), s.store, stream, first, last)))
      else None
    case Push(seals) =>
      if m.todo != [] && Sealable(TailPut(m.tail, m.todo[0]), seals) then
        var tail := TailPut(m.tail, m.todo[0]);
        Some(s.(mem := Some(m.(tail := TailWithout(tail, seals), todo := m.todo[1..],
                               flight := m.flight + SealedBatches(tail, seals)))))
      else None
    case Settle =>
      if m.todo == [] && m.current.Some? then
        Some(s.(mem := Some(m.(current := None, through := Later(m.through, m.current.value.0, m.current.value.1)))))
      else None
    case Seal(seals) =>
      if Quiescent(m) && Sealable(m.tail, seals) then
        Some(s.(mem := Some(m.(tail := TailWithout(m.tail, seals), flight := m.flight + SealedBatches(m.tail, seals)))))
      else None
    case Flush(count) =>
      if 0 < count <= |m.flight| then
        Some(State(AppendAll(s.store, w.cfg, m.flight[..count]),
                   Some(m.(flight := m.flight[count..])),
                   Discharge(s.ledger, AppendAllLoss(s.store, w.cfg, m.flight[..count]))))
      else None
    case Retire(stream) =>
      if Quiescent(m) && m.tail == map[] && m.flight == [] && stream in m.through then
        Some(s.(store := RetireJournal(s.store, stream, m.through[stream]),
                mem := Some(m.(through := m.through - {stream}))))
      else None
    case PurgeTail(channel) =>
      Some(s.(mem := Some(m.(tail := TailWithout(m.tail, [channel]))),
              ledger := Discharge(s.ledger, set r <- TailOf(m.tail, channel) :: (channel, r.key))))
    case _ => None
  }

  const START: State := State(EMPTY, None, Ledger({}, {}, {}, {}, map[]))
}
