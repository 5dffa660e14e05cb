/** Owner state of the cluster: channel policies and sessions, snapshots of them, and what a replica accepts. */
module Policy {
  import opened Tables
  import opened Journal

  datatype ChannelPolicy = ChannelPolicy(ignored: bool, alwaysJoin: bool, purgedAt: I64)

  const DEFAULT_POLICY: ChannelPolicy := ChannelPolicy(false, false, 0)

  /** A JSON value in a row; `Bad` is one that no column can take. */
  datatype Cell = Text(text: string) | Int(number: I64) | Flagged(flag: bool) | Null | Bad

  type Cells = seq<Cell>

  datatype Snapshot = Snapshot(epoch: string, revision: I64, channels: seq<Cells>, sessions: seq<Cells>)

  /** The tables rm_metadata, rm_channel and rm_auth. */
  datatype Control = Control(
    epoch: Option<string>,
    revision: int,
    initialized: bool,
    pinsBootstrapped: bool,
    channels: map<string, ChannelPolicy>,
    sessions: map<string, Cells>)

  const BLANK: Control := Control(None, 0, false, false, map[], map[])

  function MaxOf(a: I64, b: I64): I64 { if a < b then b else a }

  function PurgeOf(channels: map<string, ChannelPolicy>, channel: string): I64 {
    if channel in channels then channels[channel].purgedAt else 0
  }

  /* ---------- rows ---------- */

  predicate Flag(c: Cell) { c == Int(0) || c == Int(1) }

  predicate ChannelRow(row: Cells) {
    |row| == 4 && row[0].Text? && Flag(row[1]) && Flag(row[2]) && row[3].Int?
  }

  function NameIn(row: Cells): string {
    if |row| > 0 && row[0].Text? then row[0].text else ""
  }

  function PolicyIn(row: Cells): ChannelPolicy {
    if ChannelRow(row) then ChannelPolicy(row[1] == Int(1), row[2] == Int(1), row[3].number) else DEFAULT_POLICY
  }

  function RowFor(channel: string, p: ChannelPolicy): (row: Cells)
    ensures ChannelRow(row) && NameIn(row) == channel && PolicyIn(row) == p
  {
    [Text(channel), Int(if p.ignored then 1 else 0), Int(if p.alwaysJoin then 1 else 0), Int(p.purgedAt)]
  }

  predicate SessionRow(row: Cells) {
    |row| == 9 && row[0].Text? && forall c <- row :: !c.Bad? && !c.Null?
  }

  /** The table that inserting the rows one after another gives. */
  function ChannelTable(rows: seq<Cells>): map<string, ChannelPolicy> {
    if rows == [] then map[]
    else ChannelTable(rows[..|rows| - 1])[NameIn(rows[|rows| - 1]) := PolicyIn(rows[|rows| - 1])]
  }

  function SessionTable(rows: seq<Cells>): map<string, Cells> {
    if rows == [] then map[]
    else SessionTable(rows[..|rows| - 1])[NameIn(rows[|rows| - 1]) := rows[|rows| - 1]]
  }

  /** No primary key twice. */
  ghost predicate DistinctNames(rows: seq<Cells>) {
    forall i, j :: 0 <= i < j < |rows| ==> NameIn(rows[i]) != NameIn(rows[j])
  }

  /** The rows of a table in some order. */
  ghost predicate ListsChannels(rows: seq<Cells>, channels: map<string, ChannelPolicy>) {
    (forall row <- rows :: ChannelRow(row)) && DistinctNames(rows) && ChannelTable(rows) == channels
  }

  ghost predicate ListsSessions(rows: seq<Cells>, sessions: map<string, Cells>) {
    (forall row <- rows :: SessionRow(row)) && DistinctNames(rows) && SessionTable(rows) == sessions
  }

  lemma {:induction false} TableHolds(rows: seq<Cells>)
    requires DistinctNames(rows)
    ensures forall row <- rows :: NameIn(row) in ChannelTable(rows) && ChannelTable(rows)[NameIn(row)] == PolicyIn(row)
    ensures forall c <- ChannelTable(rows) :: exists row <- rows :: NameIn(row) == c
  {
    if rows != [] {
      var front, last := rows[..|rows| - 1], rows[|rows| - 1];
      TableHolds(front);
      assert rows == front + [last];
      forall row | row in front ensures NameIn(row) != NameIn(last) {
        var i :| 0 <= i < |front| && front[i] == row;
        assert rows[i] == row;
      }
      forall c | c in ChannelTable(rows) ensures exists row <- rows :: NameIn(row) == c {
        if c == NameIn(last) {
          assert last in rows;
        } else {
          var row :| row in front && NameIn(row) == c;
          assert row in rows;
        }
      }
    }
  }

  /* ---------- receive ---------- */

  /** A row a replica takes: a valid login, and a purge time that does not go back. */
  predicate Acceptable(row: Cells, before: map<string, ChannelPolicy>, valid: string -> bool) {
    ChannelRow(row) && valid(NameIn(row)) && row[3].number >= PurgeOf(before, NameIn(row))
  }

  /** Every purged channel is still listed. */
  ghost predicate KeepsPurged(rows: seq<Cells>, before: map<string, ChannelPolicy>) {
    forall c <- before :: before[c].purgedAt > 0 ==> exists row <- rows :: NameIn(row) == c
  }

  /** The part of a snapshot that the tables decide about. */
  ghost predicate Installable(c: Control, s: Snapshot, valid: string -> bool) {
    && (forall row <- s.channels :: Acceptable(row, c.channels, valid))
    && DistinctNames(s.channels) && KeepsPurged(s.channels, c.channels)
    && (forall row <- s.sessions :: SessionRow(row)) && DistinctNames(s.sessions)
  }

  datatype Receipt = Refused | Stale | Installed

  /** What `receive` on a replica does with a snapshot. */
  ghost function ReceiptOf(c: Control, s: Snapshot, valid: string -> bool): Receipt {
    if s.epoch == "" || s.revision < 0 then Refused
    else if c.epoch.Some? && (c.epoch.value != s.epoch || s.revision < c.revision) then Refused
    else if c.epoch.Some? && s.revision == c.revision then Stale
    else if Installable(c, s, valid) then Installed else Refused
  }

  /** A newly installed state is not ready until it was applied. */
  ghost function Received(c: Control, s: Snapshot, valid: string -> bool): Control {
    if ReceiptOf(c, s, valid) == Installed
    then Control(Some(s.epoch), s.revision, false, true, ChannelTable(s.channels), SessionTable(s.sessions))
    else c
  }

  /** Policies only advance: purge times do not fall, a purged channel stays listed. */
  ghost predicate PolicyRises(a: map<string, ChannelPolicy>, b: map<string, ChannelPolicy>) {
    forall c: string :: PurgeOf(a, c) <= PurgeOf(b, c)
  }

  ghost predicate NonNegative(channels: map<string, ChannelPolicy>) {
    forall c <- channels :: channels[c].purgedAt >= 0
  }

  /** Whatever arrives, a replica's purge times and its revision never fall. */
  lemma {:induction false} ReceiveRises(c: Control, s: Snapshot, valid: string -> bool)
    requires NonNegative(c.channels)
    ensures PolicyRises(c.channels, Received(c, s, valid).channels)
    ensures NonNegative(Received(c, s, valid).channels)
    ensures c.epoch.Some? ==> Received(c, s, valid).epoch == c.epoch && Received(c, s, valid).revision >= c.revision
  {
    if ReceiptOf(c, s, valid) == Installed {
      TableHolds(s.channels);
      var table := ChannelTable(s.channels);
      forall ch: string ensures PurgeOf(c.channels, ch) <= PurgeOf(table, ch) && PurgeOf(table, ch) >= 0 {
        if ch in table {
          var row :| row in s.channels && NameIn(row) == ch;
          assert Acceptable(row, c.channels, valid);
        }
      }
    }
  }

  /* ---------- mutations on the owner ---------- */

  datatype Mutation =
    | Ignore(channel: string, ignored: bool)
    | Purge(channel: string, cutoff: I64)
    | Pin(channel: string, enabled: bool, maximum: nat)
    | ReplacePins(pins: seq<string>)
    | BootstrapPins(pins: seq<string>)
    | SaveAuth(auth: Cells, insert: bool)
    | Revoke(token: string)

  function LowerChar(c: char): char {
    if 'A' <= c <= 'Z' then c - 'A' + 'a' else c
  }

  function Lower(s: string): (r: string)
    ensures |r| == |s|
  {
    seq(|s|, i requires 0 <= i < |s| => LowerChar(s[i]))
  }

  function PolicyOf(channels: map<string, ChannelPolicy>, channel: string): ChannelPolicy {
    if channel in channels then channels[channel] else DEFAULT_POLICY
  }

  function Pinned(channels: map<string, ChannelPolicy>): set<string> {
    set c | c in channels && channels[c].alwaysJoin
  }

  function PinEach(channels: map<string, ChannelPolicy>, pins: seq<string>): map<string, ChannelPolicy> {
    if pins == [] then channels
    else
      var before := PinEach(channels, pins[..|pins| - 1]);
      var c := Lower(pins[|pins| - 1]);
      before[c := PolicyOf(before, c).(alwaysJoin := true)]
  }

  function UnpinAll(channels: map<string, ChannelPolicy>): map<string, ChannelPolicy> {
    map c | c in channels :: channels[c].(alwaysJoin := false)
  }

  predicate MayPin(channels: map<string, ChannelPolicy>, channel: string, maximum: nat) {
    |Pinned(channels)| < maximum || (channel in channels && channels[channel].alwaysJoin)
  }

  /** The purge time of an inserted row is the one given; an existing one only rises. */
  function PurgeUpTo(channels: map<string, ChannelPolicy>, channel: string, at: I64): I64 {
    if channel in channels then MaxOf(channels[channel].purgedAt, at) else at
  }

  /** The owner's tables after the local part of a mutation; None is an error that wrote nothing. */
  function Mutated(c: Control, op: Mutation, now: I64): Option<Control> {
    match op
    case Ignore(name, ignored) =>
      var ch := Lower(name);
      Some(c.(revision := c.revision + 1,
              channels := c.channels[ch := PolicyOf(c.channels, ch).(ignored := ignored, purgedAt := PurgeUpTo(c.channels, ch, now))]))
    case Purge(name, cutoff) =>
      var ch := Lower(name);
      Some(c.(revision := c.revision + 1,
              channels := c.channels[ch := PolicyOf(c.channels, ch).(purgedAt := PurgeUpTo(c.channels, ch, cutoff))]))
    case Pin(name, enabled, maximum) =>
      var ch := Lower(name);
      Some(c.(revision := c.revision + 1, pinsBootstrapped := true,
              channels := if enabled && MayPin(c.channels, ch, maximum)
                          then c.channels[ch := PolicyOf(c.channels, ch).(alwaysJoin := true)]
                          else if !enabled && ch in c.channels
                          then c.channels[ch := c.channels[ch].(alwaysJoin := false)]
                          else c.channels))
    case ReplacePins(pins) =>
      Some(c.(revision := c.revision + 1, pinsBootstrapped := true, channels := PinEach(UnpinAll(c.channels), pins)))
    case BootstrapPins(pins) =>
      if pins == [] then Some(c)
      else Some(c.(revision := c.revision + 1, pinsBootstrapped := true,
                   channels := if c.pinsBootstrapped then c.channels else PinEach(c.channels, pins)))
    case SaveAuth(auth, insert) =>
      if !SessionRow(auth) || (insert && NameIn(auth) in c.sessions) then None
      else Some(c.(revision := c.revision + 1,
                   sessions := if insert || NameIn(auth) in c.sessions then c.sessions[NameIn(auth) := auth] else c.sessions))
    case Revoke(token) =>
      Some(c.(revision := c.revision + 1, sessions := c.sessions - {token}))
  }

  /** What the caller is told, if the local part did not fail: an error, or a flag. */
  function Answered(c: Control, op: Mutation): Option<bool> {
    match op
    case Pin(name, enabled, maximum) => if enabled && !MayPin(c.channels, Lower(name), maximum) then None else Some(false)
    case BootstrapPins(pins) => Some(pins != [] && !c.pinsBootstrapped)
    case _ => Some(false)
  }

  /** No channel is ever forgotten and no purge time falls, unless a row starts with a negative one. */
  ghost predicate OwnerRises(a: map<string, ChannelPolicy>, b: map<string, ChannelPolicy>) {
    forall c <- a :: c in b && a[c].purgedAt <= b[c].purgedAt
  }

  lemma {:induction false} PinEachKeeps(channels: map<string, ChannelPolicy>, pins: seq<string>)
    ensures OwnerRises(channels, PinEach(channels, pins))
    ensures forall c <- PinEach(channels, pins) :: c in channels || PinEach(channels, pins)[c].purgedAt == 0
  {
    if pins != [] {
      PinEachKeeps(channels, pins[..|pins| - 1]);
    }
  }

  /** Every mutation keeps the epoch and, if it writes, moves on by one revision. */
  lemma {:induction false} MutationRises(c: Control, op: Mutation, now: I64)
    requires Mutated(c, op, now).Some?
    ensures var after := Mutated(c, op, now).value;
            && OwnerRises(c.channels, after.channels)
            && after.epoch == c.epoch && after.initialized == c.initialized
            && (after == c || after.revision == c.revision + 1)
  {
    match op {
      case ReplacePins(pins) => PinEachKeeps(UnpinAll(c.channels), pins);
      case BootstrapPins(pins) => PinEachKeeps(c.channels, pins);
      case _ =>
    }
  }

  /** Ignoring a channel purges it up to now, a later purge time standing; an earlier cutoff changes nothing. */
  lemma {:induction false} PurgesDoNotFall(c: Control, op: Mutation, now: I64)
    requires op.Ignore? || op.Purge?
    ensures var at := if op.Ignore? then now else op.cutoff;
            var ch, after := Lower(op.channel), Mutated(c, op, now).value;
            && PurgeOf(after.channels, ch) >= at
            && (ch in c.channels && c.channels[ch].purgedAt >= at ==> PurgeOf(after.channels, ch) == c.channels[ch].purgedAt)
            && (op.Ignore? ==> after.channels[ch].ignored == op.ignored)
            && forall d <- c.channels :: d != ch ==> d in after.channels && after.channels[d] == c.channels[d]
  {
  }

  /** Enabling a pin never takes the number of pins past its maximum, and is refused exactly when it would. */
  lemma {:induction false} PinsStayWithin(c: Control, name: string, maximum: nat, now: I64)
    ensures var op := Pin(name, true, maximum);
            var before, after := Pinned(c.channels), Pinned(Mutated(c, op, now).value.channels);
            && (Answered(c, op).None? <==> Lower(name) !in before && |before| >= maximum)
            && (Answered(c, op).Some? ==> after == before + {Lower(name)})
            && (Answered(c, op).None? ==> after == before)
            && (|before| <= maximum ==> |after| <= maximum)
  {
    var ch := Lower(name);
    var op := Pin(name, true, maximum);
    var before, after := Pinned(c.channels), Pinned(Mutated(c, op, now).value.channels);
    if MayPin(c.channels, ch, maximum) {
      assert after == before + {ch};
    } else {
      assert after == before;
    }
  }

  /* ---------- what each mutation does, field by field ---------- */

  /** A revoked token has no session, every other session stays, channels are untouched. */
  lemma {:induction false} RevokeForgets(c: Control, token: string, now: I64)
    ensures var after := Mutated(c, Revoke(token), now).value;
            && Mutated(c, Revoke(token), now).Some?
            && token !in after.sessions
            && (forall t :: t != token ==> (t in after.sessions <==> t in c.sessions))
            && (forall t <- after.sessions :: after.sessions[t] == c.sessions[t])
            && after.channels == c.channels && after.revision == c.revision + 1
  {
  }

  /**
   * Saving a session fails for a row that is none, and for the insertion of a token that is there.
   * Otherwise the row is filed under its token, except that an update of a token nobody has changes
   * nothing; other sessions and all channels stay.
   */
  lemma {:induction false} SaveAuthFiles(c: Control, auth: Cells, insert: bool, now: I64)
    ensures var r := Mutated(c, SaveAuth(auth, insert), now); var token := NameIn(auth);
            && (r.None? <==> !SessionRow(auth) || (insert && token in c.sessions))
            && (r.Some? ==>
                  && (insert || token in c.sessions ==> token in r.value.sessions && r.value.sessions[token] == auth)
                  && (!insert && token !in c.sessions ==> r.value.sessions == c.sessions)
                  && (forall t :: t != token ==> (t in r.value.sessions <==> t in c.sessions))
                  && (forall t <- c.sessions :: t != token ==> r.value.sessions[t] == c.sessions[t])
                  && r.value.channels == c.channels && r.value.revision == c.revision + 1)
  {
  }

  /** The channel is not pinned afterwards; its other fields, every other channel and the sessions stay, and no row is added. */
  lemma {:induction false} UnpinUnpins(c: Control, name: string, maximum: nat, now: I64)
    ensures var after := Mutated(c, Pin(name, false, maximum), now).value; var ch := Lower(name);
            && after.channels.Keys == c.channels.Keys
            && (ch in c.channels ==>
                  && !after.channels[ch].alwaysJoin
                  && after.channels[ch].ignored == c.channels[ch].ignored && after.channels[ch].purgedAt == c.channels[ch].purgedAt)
            && (forall d <- c.channels :: d != ch ==> after.channels[d] == c.channels[d])
            && after.sessions == c.sessions && after.pinsBootstrapped && after.revision == c.revision + 1
  {
  }

  /** Pinning keeps the other fields of the channel, and every other channel. */
  lemma {:induction false} PinOnlyPins(c: Control, name: string, maximum: nat, now: I64)
    ensures var after := Mutated(c, Pin(name, true, maximum), now).value; var ch := Lower(name);
            && (ch in after.channels ==>
                  && after.channels[ch].ignored == (ch in c.channels && c.channels[ch].ignored)
                  && after.channels[ch].purgedAt == PurgeOf(c.channels, ch))
            && (forall d :: d != ch ==> (d in after.channels <==> d in c.channels))
            && (forall d <- c.channels :: d != ch ==> after.channels[d] == c.channels[d])
            && after.sessions == c.sessions && after.revision == c.revision + 1
  {
  }

  /** The names of the list in lower case. */
  ghost predicate Names(pins: seq<string>, channel: string) {
    exists i :: 0 <= i < |pins| && Lower(pins[i]) == channel
  }

  lemma {:induction false} PinEachPins(channels: map<string, ChannelPolicy>, pins: seq<string>)
    ensures var after := PinEach(channels, pins);
            && (forall ch :: ch in after <==> ch in channels || Names(pins, ch))
            && (forall ch <- after :: after[ch].alwaysJoin <==> Names(pins, ch) || (ch in channels && channels[ch].alwaysJoin))
            && (forall ch <- after :: after[ch].ignored == (ch in channels && channels[ch].ignored)
                                      && after[ch].purgedAt == PurgeOf(channels, ch))
  {
    if pins != [] {
      var front := pins[..|pins| - 1];
      PinEachPins(channels, front);
      forall ch ensures Names(pins, ch) <==> Names(front, ch) || Lower(pins[|pins| - 1]) == ch {
        if Names(pins, ch) {
          var i :| 0 <= i < |pins| && Lower(pins[i]) == ch;
          assert i < |front| ==> front[i] == pins[i];
        }
        if Names(front, ch) {
          var i :| 0 <= i < |front| && Lower(front[i]) == ch;
          assert pins[i] == front[i];
        }
      }
    }
  }

  /** What a list of pins leaves: exactly these channels pinned besides those it was to keep, nothing else changed. */
  ghost predicate PinnedExactly(before: map<string, ChannelPolicy>, after: map<string, ChannelPolicy>, pins: seq<string>, keep: bool) {
    && (forall ch :: ch in after <==> ch in before || Names(pins, ch))
    && (forall ch <- after :: after[ch].alwaysJoin <==> Names(pins, ch) || (keep && ch in before && before[ch].alwaysJoin))
    && (forall ch <- after :: after[ch].ignored == (ch in before && before[ch].ignored) && after[ch].purgedAt == PurgeOf(before, ch))
  }

  /** Afterwards exactly the listed channels are pinned, in lower case; no other field and no session changes. */
  lemma {:induction false} ReplacePinsExactly(c: Control, pins: seq<string>, now: I64)
    ensures var after := Mutated(c, ReplacePins(pins), now).value;
            && PinnedExactly(c.channels, after.channels, pins, false)
            && after.sessions == c.sessions && after.pinsBootstrapped && after.revision == c.revision + 1
  {
    PinEachPins(UnpinAll(c.channels), pins);
  }

  /** A list adds its pins to those there are the first time only, and an empty one does nothing at all. */
  lemma {:induction false} BootstrapPinsOnce(c: Control, pins: seq<string>, now: I64)
    ensures var after := Mutated(c, BootstrapPins(pins), now).value;
            && (pins == [] ==> after == c)
            && (pins != [] ==> after.pinsBootstrapped && after.revision == c.revision + 1 && after.sessions == c.sessions)
            && (pins != [] && c.pinsBootstrapped ==> after.channels == c.channels)
            && (pins != [] && !c.pinsBootstrapped ==> PinnedExactly(c.channels, after.channels, pins, true))
  {
    PinEachPins(c.channels, pins);
  }

  /** Opting out and purging keep the pin, a purge keeps the opt-out; no session and no other channel changes. */
  lemma {:induction false} OptOutKeepsPin(c: Control, op: Mutation, now: I64)
    requires op.Ignore? || op.Purge?
    ensures var after := Mutated(c, op, now).value; var ch := Lower(op.channel); var at := if op.Ignore? then now else op.cutoff;
            && ch in after.channels
            && after.channels[ch].alwaysJoin == (ch in c.channels && c.channels[ch].alwaysJoin)
            && after.channels[ch].ignored == (if op.Ignore? then op.ignored else ch in c.channels && c.channels[ch].ignored)
            && after.channels[ch].purgedAt == (if ch in c.channels && c.channels[ch].purgedAt > at then c.channels[ch].purgedAt else at)
            && (forall d :: d != ch ==> (d in after.channels <==> d in c.channels))
            && (forall d <- c.channels :: d != ch ==> after.channels[d] == c.channels[d])
            && after.sessions == c.sessions && after.revision == c.revision + 1
  {
  }

  /** Channel names are compared in ASCII lower case: the 26 capitals move by 32, every other character stays. */
  lemma {:induction false} LowerIsAscii(s: string, i: nat)
    requires i < |s|
    ensures 'A' <= s[i] <= 'Z' ==> Lower(s)[i] as int == s[i] as int + 32
    ensures s[i] < 'A' || 'Z' < s[i] ==> Lower(s)[i] == s[i]
  {
  }
}
