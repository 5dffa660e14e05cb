/** The control tables of a node as an object: transactions of the owner and of its replicas. */
module Cluster {
  import opened Tables
  import opened Journal
  import opened Policy

  /** The owner's state at every revision it has had. */
  type History = map<int, Control>

  ghost predicate SameTables(a: Control, b: Control) {
    a.channels == b.channels && a.sessions == b.sessions
  }

  /** What the owner recorded: one state per revision, the last one current, purge times rising. */
  ghost predicate Recorded(db: Control, history: History) {
    && db.epoch.Some?
    && db.revision in history && SameTables(history[db.revision], db)
    && (forall r <- history :: r <= db.revision && history[r].epoch == db.epoch)
    && forall r <- history, q <- history :: r <= q ==> OwnerRises(history[r].channels, history[q].channels)
  }

  /** A replica holds nothing, or the owner's tables at its own revision. */
  ghost predicate PastOf(replica: Control, db: Control, history: History) {
    && NonNegative(replica.channels)
    && if replica.epoch.None? then replica.channels == map[]
       else replica.epoch == db.epoch && replica.revision in history && SameTables(replica, history[replica.revision])
  }

  /** A snapshot taken of a recorded revision. */
  ghost predicate Genuine(s: Snapshot, db: Control, history: History) {
    && Some(s.epoch) == db.epoch && s.revision as int in history
    && ListsChannels(s.channels, history[s.revision].channels)
    && ListsSessions(s.sessions, history[s.revision].sessions)
  }

  /** What a replica can refuse in a genuine snapshot: a bad login, a negative purge time. */
  ghost predicate Presentable(channels: map<string, ChannelPolicy>, valid: string -> bool) {
    NonNegative(channels) && forall c <- channels :: valid(c)
  }

  lemma {:induction false} WriteRecorded(db: Control, history: History, op: Mutation, now: I64)
    requires Recorded(db, history) && Mutated(db, op, now).Some?
    ensures var after := Mutated(db, op, now).value; Recorded(after, history[after.revision := after])
    ensures forall s :: Genuine(s, db, history) ==>
              Genuine(s, Mutated(db, op, now).value, history[Mutated(db, op, now).value.revision := Mutated(db, op, now).value])
    ensures forall x :: PastOf(x, db, history) ==>
              PastOf(x, Mutated(db, op, now).value, history[Mutated(db, op, now).value.revision := Mutated(db, op, now).value])
  {
    MutationRises(db, op, now);
    var after := Mutated(db, op, now).value;
    var grown := history[after.revision := after];
    forall r, q | r in grown && q in grown && r <= q ensures OwnerRises(grown[r].channels, grown[q].channels) {
      if q == after.revision && r != q {
        assert OwnerRises(history[r].channels, history[db.revision].channels);
      }
    }
  }

  /** A replica that takes a genuine snapshot, or refuses it, still holds a past state of the owner. */
  lemma {:induction false} ReceiveIsPast(replica: Control, s: Snapshot, valid: string -> bool, db: Control, history: History)
    requires Recorded(db, history) && Genuine(s, db, history) && PastOf(replica, db, history)
    ensures PastOf(Received(replica, s, valid), db, history)
    ensures ReceiptOf(replica, s, valid) != Refused ==>
              Received(replica, s, valid).revision == s.revision as int && Received(replica, s, valid).epoch == db.epoch
  {
    ReceiveRises(replica, s, valid);
  }

  /** A genuine snapshot that is newer is taken exactly when its logins are valid and no purge time is negative. */
  lemma {:induction false} NewerIsTaken(replica: Control, s: Snapshot, valid: string -> bool, db: Control, history: History)
    requires Recorded(db, history) && Genuine(s, db, history) && PastOf(replica, db, history)
    requires s.epoch != "" && s.revision >= 0
    requires replica.epoch.Some? ==> replica.revision < s.revision as int
    ensures ReceiptOf(replica, s, valid) == Installed <==> Presentable(history[s.revision].channels, valid)
  {
    var channels := history[s.revision].channels;
    TableHolds(s.channels);
    assert replica.epoch.Some? ==> OwnerRises(replica.channels, channels);
    if Presentable(channels, valid) {
      forall row | row in s.channels ensures Acceptable(row, replica.channels, valid) {
        assert NameIn(row) in channels;
      }
      forall c | c in replica.channels && replica.channels[c].purgedAt > 0 ensures exists row <- s.channels :: NameIn(row) == c {
        assert c in channels;
      }
    }
    if Installable(replica, s, valid) {
      forall c | c in channels ensures valid(c) && channels[c].purgedAt >= 0 {
        var row :| row in s.channels && NameIn(row) == c;
        assert Acceptable(row, replica.channels, valid);
      }
    }
  }

  /**
   * A purge mutation takes any cutoff. One below zero, for a channel the owner has no row of, makes
   * every snapshot of that revision one that replicas refuse.
   */
  lemma {:induction false} NegativePurgeIsRefused(db: Control, history: History, name: string, cutoff: I64, now: I64, replica: Control, s: Snapshot, valid: string -> bool)
    requires Recorded(db, history) && Lower(name) !in db.channels && cutoff < 0
    requires PastOf(replica, db, history)
    requires var after := Mutated(db, Purge(name, cutoff), now).value;
             Genuine(s, after, history[after.revision := after]) && s.revision as int == after.revision
    ensures var after := Mutated(db, Purge(name, cutoff), now).value;
            && after.revision == db.revision + 1 && !Presentable(after.channels, valid)
            && ReceiptOf(replica, s, valid) == Refused && Received(replica, s, valid) == replica
  {
    var after := Mutated(db, Purge(name, cutoff), now).value;
    var grown := history[after.revision := after];
    assert after.channels[Lower(name)].purgedAt == cutoff;
    TableHolds(s.channels);
    var row :| row in s.channels && NameIn(row) == Lower(name);
    assert PolicyIn(row) == after.channels[Lower(name)];
    assert PurgeOf(replica.channels, NameIn(row)) >= 0;
    assert !Acceptable(row, replica.channels, valid);
  }

  /** Such an owner, such a snapshot: the first mutation of a new owner purges "a" up to -1. */
  lemma {:induction false} FirstPurgeIsRefused(valid: string -> bool)
    requires valid("a")
    ensures var owner := BLANK.(epoch := Some("e"), initialized := true);
            var after := Mutated(owner, Purge("a", -1), 0).value;
            var s := Snapshot("e", 1, [RowFor("a", ChannelPolicy(false, false, -1))], []);
            && Recorded(owner, map[0 := owner]) && Genuine(s, after, map[0 := owner, 1 := after])
            && ReceiptOf(BLANK, s, valid) == Refused
            && ReceiptOf(BLANK, s.(channels := [RowFor("a", ChannelPolicy(false, false, 0))]), valid) == Installed
  {
    var owner := BLANK.(epoch := Some("e"), initialized := true);
    var after := Mutated(owner, Purge("a", -1), 0).value;
    assert Lower("a") == "a";
    OneRow("a", ChannelPolicy(false, false, -1));
    var rows := [RowFor("a", ChannelPolicy(false, false, -1))];
    assert !Acceptable(rows[0], map[], valid);
    OneRow("a", ChannelPolicy(false, false, 0));
  }

  lemma {:induction false} OneRow(channel: string, p: ChannelPolicy)
    ensures ListsChannels([RowFor(channel, p)], map[channel := p]) && ListsSessions([], map[])
  {
    assert [RowFor(channel, p)][..0] == [];
    assert ChannelTable([]) == map[];
  }

  lemma {:induction false} TableStep(rows: seq<Cells>, row: Cells)
    ensures ChannelTable(rows + [row]) == ChannelTable(rows)[NameIn(row) := PolicyIn(row)]
    ensures SessionTable(rows + [row]) == SessionTable(rows)[NameIn(row) := row]
  {
    assert (rows + [row])[..|rows|] == rows;
  }

  lemma {:induction false} NamesStep(rows: seq<Cells>, row: Cells)
    requires DistinctNames(rows) && forall x <- rows :: NameIn(x) != NameIn(row)
    ensures DistinctNames(rows + [row])
  {
  }

  /** SELECT over the channel table; the order of rows is left open. */
  method ChannelRows(channels: map<string, ChannelPolicy>) returns (rows: seq<Cells>)
    ensures ListsChannels(rows, channels)
  {
    rows := [];
    var left := channels.Keys;
    while left != {}
      invariant left <= channels.Keys
      invariant (forall row <- rows :: ChannelRow(row)) && DistinctNames(rows)
      invariant ChannelTable(rows) == map c | c in channels && c !in left :: channels[c]
      decreases |left|
    {
      var c :| c in left;
      TableHolds(rows);
      TableStep(rows, RowFor(c, channels[c]));
      NamesStep(rows, RowFor(c, channels[c]));
      rows := rows + [RowFor(c, channels[c])];
      left := left - {c};
    }
    assert ChannelTable(rows) == channels;
  }

  /** Rows of rm_auth are filed under their token. */
  ghost predicate Filed(sessions: map<string, Cells>) {
    forall token <- sessions :: SessionRow(sessions[token]) && NameIn(sessions[token]) == token
  }

  method SessionRows(sessions: map<string, Cells>) returns (rows: seq<Cells>)
    requires Filed(sessions)
    ensures ListsSessions(rows, sessions)
  {
    rows := [];
    var left := sessions.Keys;
    while left != {}
      invariant left <= sessions.Keys
      invariant (forall row <- rows :: SessionRow(row) && NameIn(row) in sessions && NameIn(row) !in left) && DistinctNames(rows)
      invariant SessionTable(rows) == map t | t in sessions && t !in left :: sessions[t]
      decreases |left|
    {
      var token :| token in left;
      TableStep(rows, sessions[token]);
      NamesStep(rows, sessions[token]);
      rows := rows + [sessions[token]];
      left := left - {token};
    }
    assert SessionTable(rows) == sessions;
  }

  lemma {:induction false} SessionTableFiled(rows: seq<Cells>)
    requires forall row <- rows :: SessionRow(row)
    ensures Filed(SessionTable(rows))
  {
    if rows != [] {
      SessionTableFiled(rows[..|rows| - 1]);
      assert rows[|rows| - 1] in rows;
    }
  }

  /** Give every listed channel a pin, one statement after another. */
  method PinRows(channels: map<string, ChannelPolicy>, pins: seq<string>) returns (after: map<string, ChannelPolicy>)
    ensures after == PinEach(channels, pins)
  {
    after := channels;
    for i := 0 to |pins|
      invariant after == PinEach(channels, pins[..i])
    {
      assert pins[..i + 1][..i] == pins[..i];
      var c := Lower(pins[i]);
      after := after[c := PolicyOf(after, c).(alwaysJoin := true)];
    }
    assert pins[..|pins|] == pins;
  }

  /** Check the channel rows one by one, then that nothing purged is missing. */
  method Acceptables(rows: seq<Cells>, before: map<string, ChannelPolicy>, valid: string -> bool) returns (ok: bool)
    ensures ok <==> (forall row <- rows :: Acceptable(row, before, valid)) && KeepsPurged(rows, before)
  {
    var retained: set<string> := {};
    for i := 0 to |rows|
      invariant forall j :: 0 <= j < i ==> Acceptable(rows[j], before, valid)
      invariant retained == set j | 0 <= j < i :: NameIn(rows[j])
    {
      if !Acceptable(rows[i], before, valid) {
        assert rows[i] in rows;
        return false;
      }
      retained := retained + {NameIn(rows[i])};
    }
    ok := forall c <- before :: before[c].purgedAt > 0 ==> c in retained;
    forall c ensures c in retained <==> exists row <- rows :: NameIn(row) == c {
      if c in retained {
        var j :| 0 <= j < |rows| && NameIn(rows[j]) == c;
        assert rows[j] in rows;
      }
    }
  }

  /** INSERT row after row; a repeated primary key is an error. */
  method InsertRows(rows: seq<Cells>) returns (ok: bool, channels: map<string, ChannelPolicy>)
    ensures ok <==> DistinctNames(rows)
    ensures ok ==> channels == ChannelTable(rows)
  {
    channels := map[];
    for i := 0 to |rows|
      invariant channels == ChannelTable(rows[..i]) && DistinctNames(rows[..i])
      invariant channels.Keys == set j | 0 <= j < i :: NameIn(rows[j])
    {
      assert rows[..i + 1] == rows[..i] + [rows[i]];
      if NameIn(rows[i]) in channels {
        var j :| 0 <= j < i && NameIn(rows[j]) == NameIn(rows[i]);
        return false, map[];
      }
      TableStep(rows[..i], rows[i]);
      NamesStep(rows[..i], rows[i]);
      channels := channels[NameIn(rows[i]) := PolicyIn(rows[i])];
    }
    assert rows[..|rows|] == rows;
    return true, channels;
  }

  method InsertSessions(rows: seq<Cells>) returns (ok: bool, sessions: map<string, Cells>)
    ensures ok <==> (forall row <- rows :: SessionRow(row)) && DistinctNames(rows)
    ensures ok ==> sessions == SessionTable(rows)
  {
    sessions := map[];
    for i := 0 to |rows|
      invariant sessions == SessionTable(rows[..i]) && DistinctNames(rows[..i])
      invariant forall j :: 0 <= j < i ==> SessionRow(rows[j])
      invariant sessions.Keys == set j | 0 <= j < i :: NameIn(rows[j])
    {
      assert rows[..i + 1] == rows[..i] + [rows[i]];
      if !SessionRow(rows[i]) {
        assert rows[i] in rows;
        return false, map[];
      }
      if NameIn(rows[i]) in sessions {
        var j :| 0 <= j < i && NameIn(rows[j]) == NameIn(rows[i]);
        return false, map[];
      }
      TableStep(rows[..i], rows[i]);
      NamesStep(rows[..i], rows[i]);
      sessions := sessions[NameIn(rows[i]) := rows[i]];
    }
    assert rows[..|rows|] == rows;
    return true, sessions;
  }

  /** The transaction of a mutation: change the rows, then raise the revision. None leaves nothing behind. */
  method MutateRows(c: Control, op: Mutation, now: I64) returns (r: Option<bool>, tx: Control)
    ensures Mutated(c, op, now).None? ==> r.None? && tx == c
    ensures Mutated(c, op, now).Some? ==> tx == Mutated(c, op, now).value && r == Answered(c, op)
  {
    tx := c;
    match op {
      case Ignore(name, ignored) =>
        var ch := Lower(name);
        tx := tx.(channels := tx.channels[ch := if ch in tx.channels
          then tx.channels[ch].(ignored := ignored, purgedAt := MaxOf(tx.channels[ch].purgedAt, now))
          else ChannelPolicy(ignored, false, now)]);
        r := Some(false);
      case Purge(name, cutoff) =>
        var ch := Lower(name);
        tx := tx.(channels := tx.channels[ch := if ch in tx.channels
          then tx.channels[ch].(purgedAt := MaxOf(tx.channels[ch].purgedAt, cutoff))
          else ChannelPolicy(false, false, cutoff)]);
        r := Some(false);
      case Pin(name, enabled, maximum) =>
        var ch := Lower(name);
        r := Some(false);
        if !enabled {
          if ch in tx.channels {
            tx := tx.(channels := tx.channels[ch := tx.channels[ch].(alwaysJoin := false)]);
          }
        } else if |Pinned(tx.channels)| < maximum || (ch in tx.channels && tx.channels[ch].alwaysJoin) {
          tx := tx.(channels := tx.channels[ch := PolicyOf(tx.channels, ch).(alwaysJoin := true)]);
        } else {
          r := None;
        }
        tx := tx.(pinsBootstrapped := true);
      case ReplacePins(pins) =>
        var channels := PinRows(UnpinAll(tx.channels), pins);
        tx := tx.(channels := channels, pinsBootstrapped := true);
        r := Some(false);
      case BootstrapPins(pins) =>
        if pins == [] {
          return Some(false), c;
        }
        r := Some(!tx.pinsBootstrapped);
        if !tx.pinsBootstrapped {
          var channels := PinRows(tx.channels, pins);
          tx := tx.(channels := channels, pinsBootstrapped := true);
        }
      case SaveAuth(auth, insert) =>
        if !SessionRow(auth) || (insert && NameIn(auth) in tx.sessions) {
          return None, c;
        }
        if insert || NameIn(auth) in tx.sessions {
          tx := tx.(sessions := tx.sessions[NameIn(auth) := auth]);
        }
        r := Some(false);
      case Revoke(token) =>
        tx := tx.(sessions := tx.sessions - {token});
        r := Some(false);
    }
    tx := tx.(revision := tx.revision + 1);
  }

  class ClusterControl {
    const owner: bool
    var db: Control
    ghost var history: History   // of an owner

    ghost predicate Valid()
      reads this
    {
      Filed(db.sessions) && (owner ==> Recorded(db, history))
    }

    /** A replica of the owner with these tables and this history. */
    ghost predicate Follows(db: Control, history: History)
      reads this
    {
      Valid() && !owner && PastOf(this.db, db, history)
    }

    constructor Owner(db: Control)
      requires db.epoch.Some? && Filed(db.sessions)
      ensures Valid() && owner && this.db == db && history == map[db.revision := db]
    {
      owner := true;
      this.db := db;
      history := map[db.revision := db];
    }

    constructor Replica(db: Control)
      requires Filed(db.sessions)
      ensures Valid() && !owner && this.db == db
    {
      owner := false;
      this.db := db;
    }

    method Check() returns (ready: bool)
      ensures ready == db.initialized
    {
      ready := db.initialized;
    }

    method MarkReady()
      requires Valid()
      modifies this`db
      ensures Valid() && db == old(db).(initialized := true)
    {
      db := db.(initialized := true);
    }

    /** All rows of both tables, in one transaction; a revision that is no 64-bit integer is an error. */
    method TakeSnapshot() returns (s: Option<Snapshot>)
      requires Valid() && owner
      ensures s.Some? <==> -MAX_I64 - 1 <= db.revision <= MAX_I64
      ensures s.Some? ==> s.value.revision as int == db.revision && Genuine(s.value, db, history)
    {
      if db.revision < -MAX_I64 - 1 || db.revision > MAX_I64 {
        return None;
      }
      var channels := ChannelRows(db.channels);
      var sessions := SessionRows(db.sessions);
      return Some(Snapshot(db.epoch.value, db.revision, channels, sessions));
    }

    /** Install a snapshot unless it is stale or refused: Some(true), Some(false) or None. */
    method Receive(s: Snapshot, valid: string -> bool) returns (r: Option<bool>)
      requires Valid()
      modifies this`db
      ensures Valid()
      ensures owner ==> r.None? && db == old(db)
      ensures !owner ==> db == Received(old(db), s, valid)
      ensures !owner ==> r == match ReceiptOf(old(db), s, valid)
                              case Refused => None
                              case Stale => Some(false)
                              case Installed => Some(true)
    {
      if owner || s.epoch == "" || s.revision < 0 {
        return None;
      }
      if db.epoch.Some? {
        if db.epoch.value != s.epoch || s.revision < db.revision {
          return None;
        }
        if s.revision == db.revision {
          return Some(false);
        }
      }
      var acceptable := Acceptables(s.channels, db.channels, valid);
      if !acceptable {
        return None;
      }
      var channelsIn, channels := InsertRows(s.channels);
      if !channelsIn {
        return None;
      }
      var sessionsIn, sessions := InsertSessions(s.sessions);
      if !sessionsIn {
        return None;
      }
      SessionTableFiled(s.sessions);
      db := Control(Some(s.epoch), s.revision, false, true, channels, sessions);
      return Some(true);
    }

    /** accept_snapshot: receive, apply, mark ready. `applied` says whether applying succeeded. */
    method AcceptSnapshot(s: Snapshot, valid: string -> bool, applied: bool) returns (ok: bool)
      requires Valid()
      modifies this`db
      ensures Valid()
      ensures ok <==> !owner && applied && ReceiptOf(old(db), s, valid) != Refused
      ensures SameTables(db, if owner then old(db) else Received(old(db), s, valid))
      ensures !owner ==> db.epoch == Received(old(db), s, valid).epoch && db.revision == Received(old(db), s, valid).revision
      ensures ok ==> db.initialized
    {
      var received := Receive(s, valid);
      if received.None? || !applied {
        return false;
      }
      MarkReady();
      return true;
    }

    /** The local part of a mutation: one transaction that ends by raising the revision. */
    method MutateLocal(op: Mutation, now: I64) returns (r: Option<bool>)
      requires Valid() && owner
      modifies this
      ensures Valid() && db.epoch == old(db).epoch
      ensures Mutated(old(db), op, now).None? ==> r.None? && db == old(db) && history == old(history)
      ensures Mutated(old(db), op, now).Some? ==> db == Mutated(old(db), op, now).value && r == Answered(old(db), op)
      ensures forall s :: Genuine(s, old(db), old(history)) ==> Genuine(s, db, history)
      ensures forall x :: PastOf(x, old(db), old(history)) ==> PastOf(x, db, history)
    {
      var tx;
      r, tx := MutateRows(db, op, now);
      if tx != db {
        WriteRecorded(db, history, op, now);
        db := tx;
        history := history[tx.revision := tx];
      }
    }

    /**
     * mutate on the owner: check, write, push a snapshot to every replica. `reached` and `applied`
     * say which replicas the network reaches and which manage to apply what they receive.
     */
    method Mutate(op: Mutation, now: I64, replicas: seq<ClusterControl>, reached: seq<bool>, applied: seq<bool>, valid: string -> bool)
      returns (r: Option<bool>)
      requires Valid() && owner && |reached| == |applied| == |replicas|
      requires forall i :: 0 <= i < |replicas| ==> replicas[i].Follows(db, history)
      requires forall i, j :: 0 <= i < j < |replicas| ==> replicas[i] != replicas[j]
      modifies this, replicas
      ensures Valid() && db.epoch == old(db).epoch
      ensures db == old(db) || Mutated(old(db), op, now) == Some(db)
      ensures forall i :: 0 <= i < |replicas| ==> replicas[i].Follows(db, history)
      ensures r.Some? ==> Mutated(old(db), op, now) == Some(db) && r == Answered(old(db), op)
      ensures r.Some? ==> forall i :: 0 <= i < |replicas| ==>
                replicas[i].db.initialized && replicas[i].db.revision == db.revision && SameTables(replicas[i].db, db)
    {
      var ready := Check();
      if !ready {
        return None;
      }
      r := MutateLocal(op, now);
      if r.None? {
        return;
      }
      var pushed := Push(replicas, reached, applied, valid);
      if !pushed {
        return None;
      }
    }

    /** push_unlocked: every replica must acknowledge the snapshot. */
    method Push(replicas: seq<ClusterControl>, reached: seq<bool>, applied: seq<bool>, valid: string -> bool) returns (ok: bool)
      requires Valid() && owner && |reached| == |applied| == |replicas|
      requires forall i :: 0 <= i < |replicas| ==> replicas[i].Follows(db, history)
      requires forall i, j :: 0 <= i < j < |replicas| ==> replicas[i] != replicas[j]
      modifies replicas
      ensures Valid() && db == old(db) && history == old(history)
      ensures forall i :: 0 <= i < |replicas| ==> replicas[i].Follows(db, history)
      ensures ok ==> |replicas| > 0 && forall i :: 0 <= i < |replicas| ==>
                replicas[i].db.initialized && replicas[i].db.revision == db.revision && SameTables(replicas[i].db, db)
    {
      if |replicas| == 0 {
        return false;
      }
      var s := TakeSnapshot();
      if s.None? {
        return false;
      }
      ok := true;
      for n := 0 to |replicas|
        invariant db == old(db) && history == old(history)
        invariant forall i :: 0 <= i < |replicas| ==> replicas[i].Follows(db, history)
        invariant ok ==> forall i :: 0 <= i < n ==>
                    replicas[i].db.initialized && replicas[i].db.revision == db.revision && SameTables(replicas[i].db, db)
      {
        var acknowledged := false;
        if reached[n] {
          ReceiveIsPast(replicas[n].db, s.value, valid, db, history);
          acknowledged := replicas[n].AcceptSnapshot(s.value, valid, applied[n]);
        }
        if !acknowledged {
          ok := false;
        }
      }
    }
  }
}
