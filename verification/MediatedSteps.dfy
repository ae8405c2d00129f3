/** A mediated call, made by one method, as a run of steps of the replay system. */
module MediatedSteps {
  import opened Types
  import opened CallKeys
  import opened Logs
  import opened Mediators
  import opened Scripts
  import opened Replay
  import ReplaySteps

  ghost predicate Walks(sys: System, s: State, ls: seq<Label>)
    decreases |ls|
  {
    ls == [] || (Enabled(sys, s, ls[0]) && Walks(sys, Next(sys, s, ls[0]), ls[1..]))
  }

  ghost function Walk(sys: System, s: State, ls: seq<Label>): State
    requires Walks(sys, s, ls)
    decreases |ls|
  {
    if ls == [] then s else Walk(sys, Next(sys, s, ls[0]), ls[1..])
  }

  /** The steps `ls` are possible one after the other and end in `t`. */
  ghost predicate GoesTo(sys: System, s: State, ls: seq<Label>, t: State) {
    Walks(sys, s, ls) && Walk(sys, s, ls) == t
  }

  lemma Then(sys: System, s: State, l: Label, rest: seq<Label>, t: State)
    requires Enabled(sys, s, l) && GoesTo(sys, Next(sys, s, l), rest, t)
    ensures GoesTo(sys, s, [l] + rest, t)
  {
    assert ([l] + rest)[1..] == rest;
  }

  lemma OneStep(sys: System, s: State, l: Label)
    requires Enabled(sys, s, l)
    ensures GoesTo(sys, s, [l], Next(sys, s, l))
  {
    Then(sys, s, l, [], Next(sys, s, l));
    assert [l] + [] == [l];
  }

  ghost function MedOf(s: State, r: nat, home: string): Med
    requires r in s.attempts
  {
    Med(s.log, s.attempts[r].view, s.attempts[r].dirty, home)
  }

  /** The lease holder `r` has read the log and is at `node`; `m` is what its mediator knows. */
  ghost predicate Stands(s: State, r: nat, m: Med, node: Node) {
    && r in s.attempts && s.attempts[r].phase.Running? && s.attempts[r].node == node && Holds(s, r)
    && MedOf(s, r, m.home) == m && Fits(m) && m.view == View(|m.log|, MemoOf(m.log))
  }

  /** Where the script of `r`, at the call `p` with index `ctr`, is after the call gave `result`: at
      its continuation, parked, behind a record whose barrier failed, or stopped by the replay
      check. */
  ghost predicate EndsAs(s: State, r: nat, m: Med, p: Prog, ctr: nat, o: Outcome, result: CallResult)
    requires p.Call?
  {
    match result
    case Answer(resp) => Stands(s, r, m, At(After(p.rest, resp), ctr + 1))
    case Parked(ws, at) => o == Suspended(ws, at) && r in s.attempts && s.attempts[r].phase.Parked? && MedOf(s, r, m.home) == m
    case SnapshotFailed => !o.Suspended? && Stands(s, r, m, Flight(p.inv, p.rest, ctr, Committed(Live(p.inv, o))))
    case NonDeterministic => s.drift && r in s.attempts && s.attempts[r].phase.Over? && MedOf(s, r, m.home) == m
    case LeaseLost => false
  }

  lemma RootKey(n: Node)
    ensures KeyAt(n, []) == Itoa(if n.At? then n.ctr else n.idx)
  {
    DottedSnoc([], if n.At? then n.ctr else n.idx);
  }

  lemma StandsWrites(s: State, r: nat, m: Med, node: Node, ev: Event, x: Node, dirty: bool)
    requires Stands(s, r, m, node)
    ensures Stands(Commit(s, r, Through(s, r, ev), x, dirty), r, Grown(m, ev).(dirty := dirty), x)
  {
    ReplaySteps.HolderWrites(s, r, ev);
    GrownFits(m, ev);
    GrownCaughtUp(m, ev);
    assert m.log[m.view.cursor..] == [];
    MemoSnoc(m.log, Renumber(ev, |m.log|));
  }

  lemma AdvanceStands(sys: System, s: State, r: nat, m: Med, p: Prog, ctr: nat)
    requires Stands(s, r, m, At(p, ctr)) && p.Call? && p.inv.capability in sys.granted && Itoa(ctr) !in m.view.memo
    ensures Enabled(sys, s, Advance(r, []))
    ensures Stands(Next(sys, s, Advance(r, [])), r, m, Flight(p.inv, p.rest, ctr, Missed))
  {
    RootKey(At(p, ctr));
  }

  lemma AnnounceStands(sys: System, s: State, r: nat, m: Med, n: Node)
    requires Stands(s, r, m, n) && Unannounced(n)
    ensures Enabled(sys, s, Announce(r, []))
    ensures Stands(Next(sys, s, Announce(r, [])), r, Grown(m, Intent(0, CallRecord(sys.id, Itoa(n.idx), n.inv))),
                   n.(stage := Announced(|m.log|)))
  {
    RootKey(n);
    StandsWrites(s, r, m, n, Intent(0, CallRecord(sys.id, Itoa(n.idx), n.inv)), n.(stage := Announced(|m.log|)), m.dirty);
  }

  lemma ExecuteStands(sys: System, s: State, r: nat, m: Med, n: Node, o: Outcome, home: string)
    requires Stands(s, r, m, n) && Executable(n) && !o.Suspended? && o != Failure("")
    ensures Enabled(sys, s, Execute(r, [], o))
    ensures Stands(Next(sys, s, Execute(r, [], o)), r, m.(home := home), n.(stage := Returned(o)))
  {
  }

  lemma RecordStands(sys: System, s: State, r: nat, m: Med, n: Node, due: bool)
    requires Stands(s, r, m, n) && HasReturned(n)
    ensures Enabled(sys, s, Record(r, [], due))
    ensures Stands(Next(sys, s, Record(r, [], due)), r,
                   Grown(m, Result(0, ResultRecord(sys.id, Itoa(n.idx), n.inv, n.stage.outcome))).(dirty := m.dirty || Mutated(sys, n)),
                   AnsweredNode(sys, n, due))
  {
    RootKey(n);
    StandsWrites(s, r, m, n, Result(0, ResultRecord(sys.id, Itoa(n.idx), n.inv, n.stage.outcome)), AnsweredNode(sys, n, due),
                 m.dirty || Mutated(sys, n));
  }

  lemma SnapshotStands(sys: System, s: State, r: nat, m: Med, n: Node)
    requires Stands(s, r, m, n) && AwaitsBarrier(n)
    ensures Enabled(sys, s, Snapshot(r, [], m.home))
    ensures Stands(Next(sys, s, Snapshot(r, [], m.home)), r, Grown(m, Barrier(0, m.home, m.view.cursor)).(dirty := false), ResumedNode(n))
  {
    StandsWrites(s, r, m, n, Barrier(0, m.home, m.view.cursor), ResumedNode(n), false);
  }

  lemma ParkEnds(sys: System, s: State, r: nat, m: Med, p: Prog, ctr: nat, n: Node, o: Outcome, home: string)
    requires p.Call? && Stands(s, r, m, n) && Executable(n) && o.Suspended?
    ensures Enabled(sys, s, Park(r, o))
    ensures EndsAs(Next(sys, s, Park(r, o)), r, m.(home := home), p, ctr, o, CallResult.Parked(o.workspace, o.wakeAt))
  {
  }

  /** A call that needs no executor: answered from the memo, stopped by the check, or refused. */
  lemma LookupEnds(sys: System, granted: set<string>, s: State, r: nat, m: Med, p: Prog, ctr: nat, o: Outcome)
    requires sys.granted == Bound(granted, sys.sandbox)
    requires Stands(s, r, m, At(p, ctr)) && p.Call? && !Runs(granted, sys.sandbox, true, m, Itoa(ctr), p.inv)
    ensures Enabled(sys, s, Advance(r, []))
    ensures EndsAs(Next(sys, s, Advance(r, [])), r, m, p, ctr, o, LookupResult(m, Itoa(ctr), p.inv))
  {
    RootKey(At(p, ctr));
  }

  function LookupResult(m: Med, key: string, inv: Invocation): CallResult {
    if key !in m.view.memo then Answer(NotGranted(inv))
    else if SameCall(m.view.memo[key], inv) then Answer(Replayed(inv, m.view.memo[key]))
    else NonDeterministic
  }

  ghost function SnapshotSteps(sys: System, r: nat, inv: Invocation, o: Outcome, home: string, snap: Snap): seq<Label> {
    if MarksDirty(sys.sandbox, inv, o) && snap.Taken? then [Snapshot(r, [], home)] else []
  }

  ghost function RecordSteps(sys: System, r: nat, inv: Invocation, o: Outcome, home: string, snap: Snap): seq<Label> {
    [Record(r, [], !snap.TooSoon?)] + SnapshotSteps(sys, r, inv, o, home, snap)
  }

  /** From the moment the executor may run. */
  ghost function RunSteps(sys: System, r: nat, inv: Invocation, o: Outcome, home: string, snap: Snap): seq<Label> {
    if o.Suspended? then [Park(r, o)] else [Execute(r, [], o)] + RecordSteps(sys, r, inv, o, home, snap)
  }

  /** The steps of a call: look up; if that gives nothing, announce, execute, record, snapshot. */
  ghost function CallSteps(sys: System, granted: set<string>, r: nat, m: Med, ctr: nat, inv: Invocation, o: Outcome, home: string, snap: Snap): seq<Label> {
    var run := RunSteps(sys, r, inv, o, home, snap);
    if !Runs(granted, sys.sandbox, true, m, Itoa(ctr), inv) then [Advance(r, [])]
    else [Advance(r, [])] + if inv.idempotent then run else [Announce(r, [])] + run
  }

  /** The mediator's state once a change is recorded, before its barrier. */
  ghost function Dirtied(exec: string, m: Med, key: string, inv: Invocation, o: Outcome): Med
    requires Fits(m) && !o.Suspended?
  {
    Grown(m, Result(0, ResultRecord(exec, key, inv, o))).(dirty := true)
  }

  lemma GrownDirty(m: Med, ev: Event, d: bool)
    requires m.view.cursor <= |m.log|
    ensures Grown(m.(dirty := d), ev) == Grown(m, ev).(dirty := d)
  {
  }

  /** The barrier after a recorded change, whatever the dirty flag was. */
  lemma RecordModelDue(exec: string, m: Med, key: string, inv: Invocation, o: Outcome)
    requires Fits(m) && MarksDirty(true, inv, o)
    ensures var recorded := Dirtied(exec, m, key, inv, o);
            && Fits(recorded)
            && RecordModel(exec, true, m, key, inv, o, Taken) == Grown(recorded, Barrier(0, m.home, recorded.view.cursor)).(dirty := false)
  {
    var recorded := Grown(m, Result(0, ResultRecord(exec, key, inv, o)));
    GrownFits(m, Result(0, ResultRecord(exec, key, inv, o)));
    GrownDirty(recorded, Barrier(0, m.home, recorded.view.cursor), true);
  }

  lemma RecordDirties(sys: System, s: State, r: nat, m: Med, p: Prog, ctr: nat, o: Outcome)
    requires p.Call? && Stands(s, r, m, Flight(p.inv, p.rest, ctr, Returned(o))) && MarksDirty(sys.sandbox, p.inv, o)
    ensures Enabled(sys, s, Record(r, [], true))
    ensures Stands(Next(sys, s, Record(r, [], true)), r, Dirtied(sys.id, m, Itoa(ctr), p.inv, o), Flight(p.inv, p.rest, ctr, Committed(Live(p.inv, o))))
  {
    RecordStands(sys, s, r, m, Flight(p.inv, p.rest, ctr, Returned(o)), true);
  }

  /** The barrier behind a recorded change. */
  lemma SnapshotEnds(sys: System, s: State, r: nat, m: Med, p: Prog, ctr: nat, resp: Response) returns (t: State)
    requires p.Call? && Stands(s, r, m, Flight(p.inv, p.rest, ctr, Committed(resp)))
    ensures GoesTo(sys, s, [Snapshot(r, [], m.home)], t)
    ensures Stands(t, r, Grown(m, Barrier(0, m.home, m.view.cursor)).(dirty := false), At(After(p.rest, resp), ctr + 1))
  {
    SnapshotStands(sys, s, r, m, Flight(p.inv, p.rest, ctr, Committed(resp)));
    t := Next(sys, s, Snapshot(r, [], m.home));
    OneStep(sys, s, Snapshot(r, [], m.home));
  }

  /** Recording a change, and the barrier. */
  lemma RecordAndSnapshot(sys: System, s: State, r: nat, m: Med, p: Prog, ctr: nat, o: Outcome) returns (t: State)
    requires p.Call? && Stands(s, r, m, Flight(p.inv, p.rest, ctr, Returned(o))) && MarksDirty(sys.sandbox, p.inv, o)
    ensures GoesTo(sys, s, [Record(r, [], true)] + [Snapshot(r, [], m.home)], t)
    ensures var recorded := Dirtied(sys.id, m, Itoa(ctr), p.inv, o);
            && recorded.view.cursor <= |recorded.log|
            && Stands(t, r, Grown(recorded, Barrier(0, m.home, recorded.view.cursor)).(dirty := false), At(After(p.rest, Live(p.inv, o)), ctr + 1))
  {
    RecordDirties(sys, s, r, m, p, ctr, o);
    t := SnapshotEnds(sys, Next(sys, s, Record(r, [], true)), r, Dirtied(sys.id, m, Itoa(ctr), p.inv, o), p, ctr, Live(p.inv, o));
    Then(sys, s, Record(r, [], true), [Snapshot(r, [], m.home)], t);
  }

  lemma RecordOnlyModel(exec: string, sandbox: bool, m: Med, key: string, inv: Invocation, o: Outcome, snap: Snap)
    requires Fits(m) && !o.Suspended? && !(MarksDirty(sandbox, inv, o) && snap.Taken?)
    ensures RecordModel(exec, sandbox, m, key, inv, o, snap) ==
            Grown(m, Result(0, ResultRecord(exec, key, inv, o))).(dirty := m.dirty || MarksDirty(sandbox, inv, o))
  {
  }

  /** What a recorded call turns into when no barrier is taken. */
  lemma RecordOnlyNode(sys: System, s: State, r: nat, m: Med, p: Prog, ctr: nat, o: Outcome, snap: Snap)
    requires p.Call? && !o.Suspended? && !(MarksDirty(sys.sandbox, p.inv, o) && snap.Taken?)
    requires Stands(s, r, m, AnsweredNode(sys, Flight(p.inv, p.rest, ctr, Returned(o)), !snap.TooSoon?))
    ensures EndsAs(s, r, m, p, ctr, o, RecordResult(sys.sandbox, p.inv, o, snap))
  {
  }

  /** Recording without a barrier. */
  lemma RecordOnly(sys: System, s: State, r: nat, m: Med, p: Prog, ctr: nat, o: Outcome, snap: Snap) returns (t: State)
    requires p.Call? && Stands(s, r, m, Flight(p.inv, p.rest, ctr, Returned(o))) && !o.Suspended?
    requires !(MarksDirty(sys.sandbox, p.inv, o) && snap.Taken?)
    ensures GoesTo(sys, s, [Record(r, [], !snap.TooSoon?)], t)
    ensures EndsAs(t, r, RecordModel(sys.id, sys.sandbox, m, Itoa(ctr), p.inv, o, snap), p, ctr, o, RecordResult(sys.sandbox, p.inv, o, snap))
  {
    RecordStands(sys, s, r, m, Flight(p.inv, p.rest, ctr, Returned(o)), !snap.TooSoon?);
    t := Next(sys, s, Record(r, [], !snap.TooSoon?));
    OneStep(sys, s, Record(r, [], !snap.TooSoon?));
    RecordOnlyModel(sys.id, sys.sandbox, m, Itoa(ctr), p.inv, o, snap);
    RecordOnlyNode(sys, t, r, RecordModel(sys.id, sys.sandbox, m, Itoa(ctr), p.inv, o, snap), p, ctr, o, snap);
  }

  lemma RecordEnds(sys: System, s: State, r: nat, m: Med, p: Prog, ctr: nat, o: Outcome, snap: Snap) returns (t: State)
    requires p.Call? && Stands(s, r, m, Flight(p.inv, p.rest, ctr, Returned(o))) && !o.Suspended?
    ensures GoesTo(sys, s, RecordSteps(sys, r, p.inv, o, m.home, snap), t)
    ensures EndsAs(t, r, RecordModel(sys.id, sys.sandbox, m, Itoa(ctr), p.inv, o, snap), p, ctr, o, RecordResult(sys.sandbox, p.inv, o, snap))
  {
    if MarksDirty(sys.sandbox, p.inv, o) && snap.Taken? {
      t := RecordAndSnapshot(sys, s, r, m, p, ctr, o);
      RecordModelDue(sys.id, m, Itoa(ctr), p.inv, o);
    } else {
      t := RecordOnly(sys, s, r, m, p, ctr, o, snap);
      assert [Record(r, [], !snap.TooSoon?)] + [] == [Record(r, [], !snap.TooSoon?)];
    }
  }

  /** What the mediator knows, and what it gives the script, once the executor has run. */
  ghost function RunModel(sys: System, m: Med, key: string, inv: Invocation, o: Outcome, snap: Snap): (Med, CallResult)
    requires Fits(m)
  {
    if o.Suspended? then (m, CallResult.Parked(o.workspace, o.wakeAt))
    else (RecordModel(sys.id, sys.sandbox, m, key, inv, o, snap), RecordResult(sys.sandbox, inv, o, snap))
  }

  /** From the moment the executor may run. */
  lemma RunEnds(sys: System, s: State, r: nat, m: Med, p: Prog, ctr: nat, stage: Stage, o: Outcome, home: string, snap: Snap) returns (t: State)
    requires p.Call? && Stands(s, r, m, Flight(p.inv, p.rest, ctr, stage)) && Executable(Flight(p.inv, p.rest, ctr, stage)) && o != Failure("")
    ensures GoesTo(sys, s, RunSteps(sys, r, p.inv, o, home, snap), t)
    ensures Fits(m.(home := home))
    ensures var run := RunModel(sys, m.(home := home), Itoa(ctr), p.inv, o, snap); EndsAs(t, r, run.0, p, ctr, o, run.1)
  {
    var n := Flight(p.inv, p.rest, ctr, stage);
    if o.Suspended? {
      ParkEnds(sys, s, r, m, p, ctr, n, o, home);
      OneStep(sys, s, Park(r, o));
      t := Next(sys, s, Park(r, o));
    } else {
      ExecuteStands(sys, s, r, m, n, o, home);
      t := RecordEnds(sys, Next(sys, s, Execute(r, [], o)), r, m.(home := home), p, ctr, o, snap);
      Then(sys, s, Execute(r, [], o), RecordSteps(sys, r, p.inv, o, home, snap), t);
    }
  }

  lemma AnnouncedRunEnds(sys: System, s: State, r: nat, m: Med, p: Prog, ctr: nat, o: Outcome, home: string, snap: Snap) returns (t: State)
    requires p.Call? && Stands(s, r, m, Flight(p.inv, p.rest, ctr, Missed)) && !p.inv.idempotent && o != Failure("")
    ensures GoesTo(sys, s, [Announce(r, [])] + RunSteps(sys, r, p.inv, o, home, snap), t)
    ensures var run := RunModel(sys, RanModel(sys.id, m, Itoa(ctr), p.inv, home), Itoa(ctr), p.inv, o, snap); EndsAs(t, r, run.0, p, ctr, o, run.1)
  {
    AnnounceStands(sys, s, r, m, Flight(p.inv, p.rest, ctr, Missed));
    var announced := Grown(m, Intent(0, CallRecord(sys.id, Itoa(ctr), p.inv)));
    t := RunEnds(sys, Next(sys, s, Announce(r, [])), r, announced, p, ctr, Announced(|m.log|), o, home, snap);
    Then(sys, s, Announce(r, []), RunSteps(sys, r, p.inv, o, home, snap), t);
  }

  lemma MissEnds(sys: System, s: State, r: nat, m: Med, p: Prog, ctr: nat, o: Outcome, home: string, snap: Snap) returns (t: State)
    requires p.Call? && Stands(s, r, m, Flight(p.inv, p.rest, ctr, Missed)) && o != Failure("")
    ensures GoesTo(sys, s, if p.inv.idempotent then RunSteps(sys, r, p.inv, o, home, snap) else [Announce(r, [])] + RunSteps(sys, r, p.inv, o, home, snap), t)
    ensures var run := RunModel(sys, RanModel(sys.id, m, Itoa(ctr), p.inv, home), Itoa(ctr), p.inv, o, snap); EndsAs(t, r, run.0, p, ctr, o, run.1)
  {
    if p.inv.idempotent {
      t := RunEnds(sys, s, r, m, p, ctr, Missed, o, home, snap);
    } else {
      t := AnnouncedRunEnds(sys, s, r, m, p, ctr, o, home, snap);
    }
  }

  /** A call of the lease holder, as one method, is the replay system's steps in a row: a memo
      hit, a failed check, a refusal, an answer, a failed barrier or a parked attempt, each with
      the same log, view and dirty flag, and with the script where the call's result leaves it. */
  lemma CallIsSteps(sys: System, granted: set<string>, s: State, r: nat, m: Med, p: Prog, ctr: nat, o: Outcome, home: string, snap: Snap) returns (t: State)
    requires sys.granted == Bound(granted, sys.sandbox) && Stands(s, r, m, At(p, ctr)) && p.Call? && o != Failure("")
    ensures GoesTo(sys, s, CallSteps(sys, granted, r, m, ctr, p.inv, o, home, snap), t)
    ensures var call := CallModel(sys.id, granted, sys.sandbox, true, m, Itoa(ctr), p.inv, o, home, snap); EndsAs(t, r, call.0, p, ctr, o, call.1)
  {
    if Runs(granted, sys.sandbox, true, m, Itoa(ctr), p.inv) {
      AdvanceStands(sys, s, r, m, p, ctr);
      t := MissEnds(sys, Next(sys, s, Advance(r, [])), r, m, p, ctr, o, home, snap);
      var run := RunSteps(sys, r, p.inv, o, home, snap);
      Then(sys, s, Advance(r, []), if p.inv.idempotent then run else [Announce(r, [])] + run, t);
    } else {
      LookupEnds(sys, granted, s, r, m, p, ctr, o);
      OneStep(sys, s, Advance(r, []));
      t := Next(sys, s, Advance(r, []));
    }
  }
}
