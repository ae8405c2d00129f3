/** The replay engine over the SQL log: whole runs whose appends only reject used positions are the
    runs over the log with exact compare-and-set. */
module SqlRuns {
  import opened Types
  import opened Logs
  import opened Scripts
  import opened Nodes
  import opened Replay
  import opened ReplayInv
  import ReplaySteps

  /** The events table, a bound above all its numbers, and everything but the log (`rest.log` is
      empty). */
  datatype SqlState = SqlState(rows: Rows, end: nat, rest: State)

  const SQL_INITIAL := SqlState(map[], 0, INITIAL)

  ghost predicate Writes(l: Label) {
    l.Announce? || l.Record? || l.Snapshot? || l.Flush?
  }

  /** An event to write, and the writer's node and dirty flag afterwards. */
  datatype Write = Write(ev: Event, node: Node, dirty: bool)

  ghost function WriteOf(sys: System, s: State, l: Label, end: nat): Write
    requires Writes(l) && Enabled(sys, s, l)
  {
    var at := s.attempts[l.r];
    match l
    case Announce(r, a) =>
      var n := Leaf(s, r, a).value;
      Write(Intent(0, CallRecord(sys.id, KeyAt(n, a), n.inv)), Put(at.node, a, n.(stage := Announced(end))), at.dirty)
    case Record(r, a, due) =>
      var n := Leaf(s, r, a).value;
      Write(Result(0, ResultRecord(sys.id, KeyAt(n, a), n.inv, n.stage.outcome)), Put(at.node, a, AnsweredNode(sys, n, due)), at.dirty || Mutated(sys, n))
    case Snapshot(r, a, key) => Write(Barrier(0, key, at.view.cursor), Put(at.node, a, ResumedNode(Leaf(s, r, a).value)), false)
    case Flush(r, key) => Write(Barrier(0, key, at.view.cursor), at.node, false)
  }

  /** A step over the SQL log: the same step, but reading and writing go through the table. */
  ghost function SqlNext(sys: System, q: SqlState, l: Label): SqlState
    requires Enabled(sys, q.rest, l)
  {
    if Writes(l) then
      var at, w := q.rest.attempts[l.r], WriteOf(sys, q.rest, l, q.end);
      var (ok, rows, view) := SqlWriteThrough(q.rows, q.end, q.rest.lease.current, at.token, at.view, w.ev);
      SqlState(rows, if ok && view.cursor > q.end then view.cursor else q.end,
               q.rest.(attempts := q.rest.attempts[l.r := at.(view := view, node := w.node, dirty := w.dirty)]))
    else if l.Read? then
      var v := Sync(EMPTY_VIEW, RowsFrom(q.rows, 0, q.end));
      q.(rest := q.rest.(attempts := q.rest.attempts[l.r := q.rest.attempts[l.r].(phase := Running, view := v, base := v.memo)]))
    else q.(rest := Next(sys, q.rest, l))
  }

  ghost predicate SqlLegal(sys: System, ls: seq<Label>)
    decreases |ls|, 0
  {
    ls == [] || (SqlLegal(sys, ls[..|ls| - 1]) && Enabled(sys, SqlPlay(sys, ls[..|ls| - 1]).rest, ls[|ls| - 1]))
  }

  ghost function SqlPlay(sys: System, ls: seq<Label>): SqlState
    requires SqlLegal(sys, ls)
    decreases |ls|, 1
  {
    if ls == [] then SQL_INITIAL else SqlNext(sys, SqlPlay(sys, ls[..|ls| - 1]), ls[|ls| - 1])
  }

  /** The table holds exactly the log, and the rest is the same. */
  ghost predicate Alike(q: SqlState, s: State) {
    q.rows == TableOf(s.log) && q.end == |s.log| && q.rest == s.(log := [])
  }

  lemma EnabledAlike(sys: System, s: State, l: Label)
    ensures Enabled(sys, s.(log := []), l) <==> Enabled(sys, s, l)
  {
    var t := s.(log := []);
    assert forall r, a :: Leaf(t, r, a) == Leaf(s, r, a);
  }

  lemma NextWrites(sys: System, s: State, l: Label)
    requires Writes(l) && Enabled(sys, s, l)
    ensures var w := WriteOf(sys, s, l, |s.log|); Next(sys, s, l) == Commit(s, l.r, Through(s, l.r, w.ev), w.node, w.dirty)
  {
  }

  lemma SameWrite(sys: System, s: State, l: Label, end: nat)
    requires Writes(l) && Enabled(sys, s, l)
    ensures Enabled(sys, s.(log := []), l) && WriteOf(sys, s.(log := []), l, end) == WriteOf(sys, s, l, end)
  {
    EnabledAlike(sys, s, l);
  }

  /** A write of the lease holder lands alike in both logs. */
  lemma HolderWritesAlike(sys: System, s: State, r: nat, ev: Event)
    requires Inv(sys, s) && Holds(s, r) && !s.attempts[r].phase.Waiting?
    ensures var w := Through(s, r, ev);
            && SqlWriteThrough(TableOf(s.log), |s.log|, s.lease.current, s.attempts[r].token, s.attempts[r].view, ev) == (w.ok, TableOf(w.log), w.view)
            && w.ok && w.view.cursor == |w.log| == |s.log| + 1
  {
    assert AttemptOk(sys, s.log, s.attempts[r]);
    SqlWritesAlike(s.log, s.lease.current, s.attempts[r].token, s.attempts[r].view, ev);
    WriteLands(s.log, s.lease.current, s.attempts[r].token, s.attempts[r].view, ev);
  }

  lemma WriteAlike(sys: System, q: SqlState, s: State, l: Label)
    requires Inv(sys, s) && Alike(q, s) && Writes(l) && Enabled(sys, s, l)
    ensures Enabled(sys, q.rest, l) && Alike(SqlNext(sys, q, l), Next(sys, s, l))
  {
    SameWrite(sys, s, l, |s.log|);
    NextWrites(sys, s, l);
    HolderWritesAlike(sys, s, l.r, WriteOf(sys, s, l, |s.log|).ev);
  }

  lemma ReadAlike(sys: System, q: SqlState, s: State, l: Label)
    requires Alike(q, s) && l.Read? && Enabled(sys, s, l)
    ensures Enabled(sys, q.rest, l) && Alike(SqlNext(sys, q, l), Next(sys, s, l))
  {
    SqlReadsAlike(s.log, 0, |s.log|);
    assert s.log[0..] == s.log;
  }

  lemma OtherAlike(sys: System, q: SqlState, s: State, l: Label)
    requires Alike(q, s) && !Writes(l) && !l.Read? && Enabled(sys, s, l)
    ensures Enabled(sys, q.rest, l) && Alike(SqlNext(sys, q, l), Next(sys, s, l))
  {
    EnabledAlike(sys, s, l);
  }

  /** For all histories: what is possible over the SQL log is exactly what is possible over the log
      with compare-and-set; table and log then have the same contents without a gap, and every
      attempt has the same view, the same place in its script and the same output. */
  lemma {:induction false} SqlRunsAlike(sys: System, ls: seq<Label>)
    ensures SqlLegal(sys, ls) <==> Legal(sys, ls)
    ensures Legal(sys, ls) ==> Alike(SqlPlay(sys, ls), Play(sys, ls))
  {
    if ls != [] {
      var init, l := ls[..|ls| - 1], ls[|ls| - 1];
      SqlRunsAlike(sys, init);
      if Legal(sys, init) {
        ReplaySteps.PlayKeeps(sys, init);
        StepAlike(sys, SqlPlay(sys, init), Play(sys, init), l);
      }
    }
  }

  lemma StepAlike(sys: System, q: SqlState, s: State, l: Label)
    requires Inv(sys, s) && Alike(q, s)
    ensures Enabled(sys, q.rest, l) <==> Enabled(sys, s, l)
    ensures Enabled(sys, s, l) ==> Alike(SqlNext(sys, q, l), Next(sys, s, l))
  {
    EnabledAlike(sys, s, l);
    if Enabled(sys, s, l) {
      if Writes(l) {
        WriteAlike(sys, q, s, l);
      } else if l.Read? {
        ReadAlike(sys, q, s, l);
      } else {
        OtherAlike(sys, q, s, l);
      }
    }
  }
}
