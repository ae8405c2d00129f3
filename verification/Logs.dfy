/** Event logs: the in-memory log, the SQL log, the leases that fence them,
    and the mediator's way of writing to a log through a cursor. */
module Logs {
  import opened Types

  datatype Appended = Wrote(at: nat) | Conflict | Fenced

  /** What a mediator knows of the log: where to write next, and the recorded results. */
  datatype View = View(cursor: nat, memo: map<string, RPCRecord>)

  const EMPTY_VIEW := View(0, map[])

  /** Fence check: only a *different current* lease rejects a token. */
  predicate Superseded(current: Option<nat>, token: nat) {
    current.Some? && token != current.value
  }

  function MemAppend(log: seq<Event>, current: Option<nat>, expected: nat, token: nat, ev: Event): (Appended, seq<Event>) {
    if Superseded(current, token) then (Fenced, log)
    else if expected != |log| then (Conflict, log)
    else (Wrote(|log|), log + [Renumber(ev, |log|)])
  }

  /** Whom the fence rejects, and what the in-memory log then does with the position: a token is
      refused exactly when another one is current, whichever of the two is larger. */
  lemma MemVerdict(log: seq<Event>, current: Option<nat>, expected: nat, token: nat, ev: Event)
    ensures var (r, log') := MemAppend(log, current, expected, token, ev); var other := exists t :: current == Some(t) && t != token;
            && (r == Fenced <==> other)
            && (r == Conflict <==> !other && expected != |log|)
            && (r == Wrote(|log|) <==> !other && expected == |log|)
            && (r.Wrote? ==> r.at == |log| && |log'| == |log| + 1 && log'[..|log|] == log && log'[|log|] == ev.(seqNo := |log|))
            && (!r.Wrote? ==> log' == log)
  {
    assert current.Some? ==> current == Some(current.value);
  }

  function MemRead(log: seq<Event>, from: nat): seq<Event> {
    if from >= |log| then [] else log[from..]
  }

  /** One event read back or written: raise the cursor past it, memoize a result. */
  function Absorb(v: View, ev: Event): View {
    View(if ev.seqNo + 1 > v.cursor then ev.seqNo + 1 else v.cursor,
         if ev.Result? then v.memo[ev.rpc.callKey := ev.rpc] else v.memo)
  }

  function Sync(v: View, events: seq<Event>): View {
    if events == [] then v else Absorb(Sync(v, events[..|events| - 1]), events[|events| - 1])
  }

  /** The recorded results of a log. */
  function MemoOf(log: seq<Event>): map<string, RPCRecord> {
    Sync(EMPTY_VIEW, log).memo
  }

  /** Event i has sequence number i. */
  ghost predicate Dense(log: seq<Event>) {
    forall i :: 0 <= i < |log| ==> log[i].seqNo == i
  }

  lemma {:induction false} SyncConcat(v: View, a: seq<Event>, b: seq<Event>)
    ensures Sync(v, a + b) == Sync(Sync(v, a), b)
  {
    if b == [] {
      assert a + b == a;
    } else {
      SyncConcat(v, a, b[..|b| - 1]);
      assert (a + b)[..|a + b| - 1] == a + b[..|b| - 1];
    }
  }

  lemma SyncSnoc(v: View, a: seq<Event>, ev: Event)
    ensures Sync(v, a + [ev]) == Absorb(Sync(v, a), ev)
  {
    assert (a + [ev])[..|a|] == a;
  }

  /** Reading the rest of a dense log puts the cursor at its end. */
  lemma {:induction false} SyncReachesEnd(v: View, log: seq<Event>, from: nat)
    requires Dense(log) && from <= |log| && v.cursor <= from
    ensures Sync(v, log[from..]).cursor == if from == |log| then v.cursor else |log|
    decreases |log|
  {
    if from < |log| {
      var shorter := log[..|log| - 1];
      SyncReachesEnd(v, shorter, from);
      assert log[from..] == shorter[from..] + [log[|log| - 1]];
      SyncSnoc(v, shorter[from..], log[|log| - 1]);
    }
  }

  /** The SQL table of one execution: sequence number to event. */
  type Rows = map<nat, Event>

  function SqlAppend(rows: Rows, current: Option<nat>, expected: nat, token: nat, ev: Event): (Appended, Rows) {
    if Superseded(current, token) then (Fenced, rows)
    else if expected in rows then (Conflict, rows)
    else (Wrote(expected), rows[expected := Renumber(ev, expected)])
  }

  /** The SQL log has the same fence, and refuses only a used number. */
  lemma SqlVerdict(rows: Rows, current: Option<nat>, expected: nat, token: nat, ev: Event)
    ensures var (r, rows') := SqlAppend(rows, current, expected, token, ev); var other := exists t :: current == Some(t) && t != token;
            && (r == Fenced <==> other)
            && (r == Conflict <==> !other && expected in rows)
            && (r == Wrote(expected) <==> !other && expected !in rows)
            && (r.Wrote? ==> rows' == rows[expected := ev.(seqNo := expected)])
            && (!r.Wrote? ==> rows' == rows)
  {
    assert current.Some? ==> current == Some(current.value);
  }

  /** The rows with sequence numbers in [from, upTo), in order. */
  function RowsFrom(rows: Rows, from: nat, upTo: nat): seq<Event> {
    if upTo <= from then [] else
      RowsFrom(rows, from, upTo - 1) + if upTo - 1 in rows then [rows[upTo - 1]] else []
  }

  /** The table that holds exactly `log`. */
  function TableOf(log: seq<Event>): Rows {
    map i | 0 <= i < |log| :: log[i]
  }

  /** The SQL log gives every caller the answer and the contents of the in-memory log
      exactly when the caller's cursor does not lie past the end (or the caller is fenced):
      the SQL log has no check against gaps. */
  lemma SqlAgreesUpToEnd(log: seq<Event>, current: Option<nat>, expected: nat, token: nat, ev: Event)
    ensures var m, q := MemAppend(log, current, expected, token, ev), SqlAppend(TableOf(log), current, expected, token, ev);
            (q.0 == m.0 && q.1 == TableOf(m.1)) <==> (expected <= |log| || (current != None && current != Some(token)))
  {
    var m, q := MemAppend(log, current, expected, token, ev), SqlAppend(TableOf(log), current, expected, token, ev);
    if !Superseded(current, token) && expected == |log| {
      assert q.1 == TableOf(m.1);
    }
  }

  lemma {:induction false} RowsWithin(log: seq<Event>, from: nat, upTo: nat)
    requires from <= upTo <= |log|
    ensures RowsFrom(TableOf(log), from, upTo) == log[from..upTo]
  {
    if from < upTo {
      RowsWithin(log, from, upTo - 1);
      assert log[from..upTo] == log[from..upTo - 1] + [log[upTo - 1]];
    }
  }

  /** Reading the SQL table of a log gives what the in-memory log gives. */
  lemma {:induction false} SqlReadsAlike(log: seq<Event>, from: nat, upTo: nat)
    requires |log| <= upTo
    ensures RowsFrom(TableOf(log), from, upTo) == MemRead(log, from)
  {
    if |log| < upTo {
      if from < upTo { SqlReadsAlike(log, from, upTo - 1); }
    } else if from < |log| {
      RowsWithin(log, from, upTo);
      assert log[from..upTo] == log[from..];
    }
  }

  /** Outcome of writing through a cursor: did it land, and log and view afterwards. */
  datatype Written = Written(ok: bool, log: seq<Event>, view: View)

  /** A mediator's append with nobody writing in between: on a conflict, read on and try again. */
  function WriteThrough(log: seq<Event>, current: Option<nat>, token: nat, v: View, ev: Event): Written {
    match MemAppend(log, current, v.cursor, token, ev)
    case (Wrote(at), grown) => Written(true, grown, Absorb(v, Renumber(ev, at)))
    case (Fenced, _) => Written(false, log, v)
    case (Conflict, _) =>
      var missed := MemRead(log, v.cursor);
      if missed == [] then Written(false, log, v) else
        var w := Sync(v, missed);
        match MemAppend(log, current, w.cursor, token, ev)
        case (Wrote(at), grown) => Written(true, grown, Absorb(w, Renumber(ev, at)))
        case (_, _) => Written(false, log, w)
  }

  // ---- What a memo says about its log

  ghost predicate UniqueResults(log: seq<Event>) {
    forall i, j :: 0 <= i < j < |log| && log[i].Result? && log[j].Result? ==> log[i].rpc.callKey != log[j].rpc.callKey
  }

  lemma {:induction false} MemoIsRecorded(log: seq<Event>, key: string) returns (i: nat)
    requires key in MemoOf(log)
    ensures i < |log| && log[i].Result? && log[i].rpc.callKey == key && log[i].rpc == MemoOf(log)[key]
  {
    var n := |log| - 1;
    if log[n].Result? && log[n].rpc.callKey == key {
      i := n;
    } else {
      i := MemoIsRecorded(log[..n], key);
    }
  }

  lemma {:induction false} RecordedIsMemo(log: seq<Event>, i: nat)
    requires i < |log| && log[i].Result?
    ensures log[i].rpc.callKey in MemoOf(log)
    ensures UniqueResults(log) ==> MemoOf(log)[log[i].rpc.callKey] == log[i].rpc
  {
    var n := |log| - 1;
    if i < n { RecordedIsMemo(log[..n], i); }
  }

  lemma MemoSnoc(log: seq<Event>, ev: Event)
    ensures MemoOf(log + [ev]) == if ev.Result? then MemoOf(log)[ev.rpc.callKey := ev.rpc] else MemoOf(log)
  {
    SyncSnoc(EMPTY_VIEW, log, ev);
  }

  // ---- What a write through a cursor achieves

  /** A write through a cursor that does not lie past the end lands exactly when no *other*
      lease is current; it then sits at the end and the view has caught up. */
  lemma WriteLands(log: seq<Event>, current: Option<nat>, token: nat, v: View, ev: Event)
    requires Dense(log) && v.cursor <= |log|
    ensures WriteThrough(log, current, token, v, ev) ==
            if current != None && current != Some(token) then Written(false, log, v)
            else Written(true, log + [Renumber(ev, |log|)], Sync(v, log[v.cursor..] + [Renumber(ev, |log|)]))
    ensures current == None || current == Some(token) ==> WriteThrough(log, current, token, v, ev).view.cursor == |log| + 1
  {
    MemVerdict(log, current, v.cursor, token, ev);
    MemVerdict(log, current, |log|, token, ev);
    SyncReachesEnd(v, log, v.cursor);
    SyncSnoc(v, log[v.cursor..], Renumber(ev, |log|));
    if v.cursor == |log| { assert log[v.cursor..] == []; }
  }

  /** The fence alone does not stop an old holder: once the newer lease has been *released*,
      a write that renewed earlier still lands, re-syncing past the newer holder's result. */
  lemma LateAppendDuplicates(rec: RPCRecord)
    ensures var log := [Result(0, rec)];
            var w := WriteThrough(log, None, 1, EMPTY_VIEW, Result(0, rec));
            w.ok && !UniqueResults(w.log)
  {
    var log := [Result(0, rec)];
    WriteLands(log, None, 1, EMPTY_VIEW, Result(0, rec));
    var w := WriteThrough(log, None, 1, EMPTY_VIEW, Result(0, rec));
    assert w.log[0].rpc.callKey == w.log[1].rpc.callKey;
  }

  /** For any log and lease: a write keeps results unique exactly when it is fenced off,
      is not a result, or answers a key that has none yet. */
  lemma WriteKeepsUniqueIff(log: seq<Event>, current: Option<nat>, token: nat, v: View, ev: Event)
    requires Dense(log) && UniqueResults(log) && v.cursor <= |log|
    ensures UniqueResults(WriteThrough(log, current, token, v, ev).log) <==>
            ((current != None && current != Some(token)) || !ev.Result? || ev.rpc.callKey !in MemoOf(log))
  {
    WriteLands(log, current, token, v, ev);
    var grown := log + [Renumber(ev, |log|)];
    if ev.Result? && ev.rpc.callKey in MemoOf(log) {
      var i := MemoIsRecorded(log, ev.rpc.callKey);
      assert grown[i].rpc.callKey == grown[|log|].rpc.callKey;
    } else if ev.Result? {
      forall i | 0 <= i < |log| && log[i].Result? ensures log[i].rpc.callKey != ev.rpc.callKey { RecordedIsMemo(log, i); }
    }
  }

  /** The same write against the SQL table, whose sequence numbers lie below `upTo`. */
  function SqlWriteThrough(rows: Rows, upTo: nat, current: Option<nat>, token: nat, v: View, ev: Event): (bool, Rows, View) {
    match SqlAppend(rows, current, v.cursor, token, ev)
    case (Wrote(at), grown) => (true, grown, Absorb(v, Renumber(ev, at)))
    case (Fenced, _) => (false, rows, v)
    case (Conflict, _) =>
      var missed := RowsFrom(rows, v.cursor, upTo);
      if missed == [] then (false, rows, v) else
        var w := Sync(v, missed);
        match SqlAppend(rows, current, w.cursor, token, ev)
        case (Wrote(at), grown) => (true, grown, Absorb(w, Renumber(ev, at)))
        case (_, _) => (false, rows, w)
  }

  /** A write whose position is used reads on and tries once more. */
  lemma SqlRetries(rows: Rows, upTo: nat, current: Option<nat>, token: nat, v: View, ev: Event, missed: seq<Event>, at: nat, grown: Rows)
    requires SqlAppend(rows, current, v.cursor, token, ev) == (Conflict, rows)
    requires RowsFrom(rows, v.cursor, upTo) == missed != []
    requires SqlAppend(rows, current, Sync(v, missed).cursor, token, ev) == (Wrote(at), grown)
    ensures SqlWriteThrough(rows, upTo, current, token, v, ev) == (true, grown, Absorb(Sync(v, missed), Renumber(ev, at)))
  {
  }

  lemma MemRetries(log: seq<Event>, current: Option<nat>, token: nat, v: View, ev: Event, missed: seq<Event>, at: nat, grown: seq<Event>)
    requires MemAppend(log, current, v.cursor, token, ev) == (Conflict, log)
    requires MemRead(log, v.cursor) == missed != []
    requires MemAppend(log, current, Sync(v, missed).cursor, token, ev) == (Wrote(at), grown)
    ensures WriteThrough(log, current, token, v, ev) == Written(true, grown, Absorb(Sync(v, missed), Renumber(ev, at)))
  {
  }

  /** Through a cursor that does not lie past the end, the weaker SQL log behaves exactly as
      the compare-and-set log: same verdict, same view, same contents, no gap. */
  lemma SqlWritesAlike(log: seq<Event>, current: Option<nat>, token: nat, v: View, ev: Event)
    requires Dense(log) && v.cursor <= |log|
    ensures var w := WriteThrough(log, current, token, v, ev);
            SqlWriteThrough(TableOf(log), |log|, current, token, v, ev) == (w.ok, TableOf(w.log), w.view)
  {
    if !Superseded(current, token) {
      SqlAtEnd(log, current, token, ev);
      MemAtEnd(log, current, token, ev);
      if v.cursor < |log| {
        SqlCatchesUp(log, v);
        SqlUsed(log, current, v.cursor, token, ev);
        var missed, grown := MemRead(log, v.cursor), log + [Renumber(ev, |log|)];
        SqlRetries(TableOf(log), |log|, current, token, v, ev, missed, |log|, TableOf(grown));
        MemRetries(log, current, token, v, ev, missed, |log|, grown);
      }
    }
  }

  lemma MemAtEnd(log: seq<Event>, current: Option<nat>, token: nat, ev: Event)
    requires !Superseded(current, token)
    ensures MemAppend(log, current, |log|, token, ev) == (Wrote(|log|), log + [Renumber(ev, |log|)])
  {
  }

  /** A used sequence number conflicts in both logs. */
  lemma SqlUsed(log: seq<Event>, current: Option<nat>, at: nat, token: nat, ev: Event)
    requires !Superseded(current, token) && at < |log|
    ensures SqlAppend(TableOf(log), current, at, token, ev) == (Conflict, TableOf(log))
    ensures MemAppend(log, current, at, token, ev) == (Conflict, log)
  {
  }

  lemma SqlCatchesUp(log: seq<Event>, v: View)
    requires Dense(log) && v.cursor < |log|
    ensures v.cursor in TableOf(log) && RowsFrom(TableOf(log), v.cursor, |log|) == MemRead(log, v.cursor) != []
    ensures Sync(v, MemRead(log, v.cursor)).cursor == |log|
  {
    SqlReadsAlike(log, v.cursor, |log|);
    SyncReachesEnd(v, log, v.cursor);
  }

  lemma SqlAtEnd(log: seq<Event>, current: Option<nat>, token: nat, ev: Event)
    requires !Superseded(current, token)
    ensures SqlAppend(TableOf(log), current, |log|, token, ev) == (Wrote(|log|), TableOf(log + [Renumber(ev, |log|)]))
  {
    SqlAgreesUpToEnd(log, current, |log|, token, ev);
  }
}
