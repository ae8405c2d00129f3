/** The home directory across calls, crashes of single calls, and suspensions. */
module HomeDirs {
  import opened Types
  import opened CallKeys
  import opened Logs
  import opened Mediators

  const FRESH_HOME := ""

  /** The home directory a new attempt starts from: the latest barrier's, or a fresh one. */
  function Restored(log: seq<Event>): string {
    if log == [] then FRESH_HOME
    else if log[|log| - 1].Barrier? then log[|log| - 1].snapshot
    else Restored(log[..|log| - 1])
  }

  ghost predicate LastBarrier(events: seq<Event>, i: nat)
    requires i < |events|
  {
    events[i].Barrier? && forall k :: i < k < |events| ==> !events[k].Barrier?
  }

  /** The engine's search for the snapshot to restore. */
  method LatestSnapshot(events: seq<Event>) returns (key: Option<string>)
    ensures Restored(events) == if key.Some? then key.value else FRESH_HOME
    ensures key.None? <==> forall i :: 0 <= i < |events| ==> !events[i].Barrier?
    ensures key.Some? ==> exists i :: 0 <= i < |events| && LastBarrier(events, i) && events[i].snapshot == key.value
  {
    key := None;
    ghost var last := 0;
    for i := 0 to |events|
      invariant Restored(events[..i]) == if key.Some? then key.value else FRESH_HOME
      invariant key.None? <==> forall k :: 0 <= k < i ==> !events[k].Barrier?
      invariant key.Some? ==> 0 <= last < i && LastBarrier(events[..i], last) && events[last].snapshot == key.value
    {
      assert events[..i + 1][..i] == events[..i];
      if events[i].Barrier? { key, last := Some(events[i].snapshot), i; }
    }
    assert events[..|events|] == events;
  }

  /** A clean flag means the log can restore the directory as it is. */
  ghost predicate HomeOk(m: Med) {
    !m.dirty ==> m.home == Restored(m.log)
  }

  lemma GrownRestores(m: Med, ev: Event)
    requires Fits(m)
    ensures Restored(Grown(m, ev).log) == if ev.Barrier? then ev.snapshot else Restored(m.log)
  {
    var log' := Grown(m, ev).log;
    assert log'[..|log'| - 1] == m.log;
  }

  lemma RanRestores(exec: string, m: Med, key: string, inv: Invocation, home: string)
    requires Fits(m)
    ensures var ran := RanModel(exec, m, key, inv, home);
            Restored(ran.log) == Restored(m.log) && ran.home == home && ran.dirty == m.dirty
  {
    GrownRestores(m, Intent(0, CallRecord(exec, key, inv)));
  }

  /** What a recorded outcome leaves to restore. */
  lemma RecordRestores(exec: string, sandbox: bool, m: Med, key: string, inv: Invocation, o: Outcome, snap: Snap)
    requires Fits(m) && !o.Suspended?
    ensures var r := RecordModel(exec, sandbox, m, key, inv, o, snap);
            && r.home == m.home
            && (if !MarksDirty(sandbox, inv, o) then r.dirty == m.dirty && Restored(r.log) == Restored(m.log)
                else if snap.Taken? then !r.dirty && Restored(r.log) == m.home
                else r.dirty)
  {
    var result := Result(0, ResultRecord(exec, key, inv, o));
    GrownFits(m, result);
    GrownRestores(m, result);
    var recorded := Grown(m, result);
    GrownRestores(recorded, Barrier(0, m.home, recorded.view.cursor));
  }

  /** The exact condition under which a call of the lease holder keeps the promise: the flag was
      up already, nothing ran, the directory did not change, or the change is one that marks it
      dirty. A failing, suspending or unflagged call that changes a clean home breaks it. */
  lemma CallKeepsHome(exec: string, granted: set<string>, sandbox: bool, m: Med, key: string,
                      inv: Invocation, o: Outcome, home: string, snap: Snap)
    requires Fits(m) && HomeOk(m)
    ensures HomeOk(CallModel(exec, granted, sandbox, true, m, key, inv, o, home, snap).0) <==>
            (m.dirty || !Runs(granted, sandbox, true, m, key, inv) || home == m.home || MarksDirty(sandbox, inv, o))
  {
    if Runs(granted, sandbox, true, m, key, inv) {
      RanRestores(exec, m, key, inv, home);
      if !o.Suspended? { RecordRestores(exec, sandbox, RanModel(exec, m, key, inv, home), key, inv, o, snap); }
    }
  }

  /** The log of a failing announced call. */
  lemma FailingCallLog(exec: string, m: Med, key: string, inv: Invocation, msg: string, home: string, snap: Snap)
    requires Fits(m) && !inv.idempotent
    ensures RecordModel(exec, true, RanModel(exec, m, key, inv, home), key, inv, Failure(msg), snap).log ==
            m.log + [Intent(|m.log|, CallRecord(exec, key, inv))] + [Result(|m.log| + 1, ResultRecord(exec, key, inv, Failure(msg)))]
  {
    var intent := Intent(0, CallRecord(exec, key, inv));
    assert RanModel(exec, m, key, inv, home).log == m.log + [Renumber(intent, |m.log|)];
  }

  /** A shell call that fails after changing the directory: its intent and its failure are in the
      log, the directory is changed, and the clean flag says that the log restores it. */
  lemma FailingWriterLosesHome(exec: string, args: string, msg: string)
    ensures var inv := Invocation("shell", "exec", args, false, true);
            var m := Med([], EMPTY_VIEW, false, FRESH_HOME);
            var after := CallModel(exec, {}, true, true, m, "0", inv, Failure(msg), "half-written", Taken).0;
            && HomeOk(m)
            && after.log == [Intent(0, CallRecord(exec, "0", inv)), Result(1, ResultRecord(exec, "0", inv, Failure(msg)))]
            && after.home == "half-written" && !after.dirty && Restored(after.log) == FRESH_HOME && !HomeOk(after)
  {
    var inv, m := Invocation("shell", "exec", args, false, true), Med([], EMPTY_VIEW, false, FRESH_HOME);
    FailingCallLog(exec, m, "0", inv, msg, "half-written", Taken);
    RanRestores(exec, m, "0", inv, "half-written");
    RecordRestores(exec, true, RanModel(exec, m, "0", inv, "half-written"), "0", inv, Failure(msg), Taken);
  }

  /** When a change makes a barrier: a call of the lease holder that succeeds and may change the
      directory ends with a barrier of the directory as it left it exactly when the debounce interval
      has elapsed since the last one and the sandbox can be snapshotted; otherwise the directory is
      dirty, and the call fails exactly when it was time and the snapshot failed. */
  lemma BarrierIffDue(exec: string, granted: set<string>, m: Med, key: string, inv: Invocation, json: string, home: string,
                      since: int, debounce: int, snapshotOk: bool)
    requires Fits(m) && key !in m.view.memo && inv.capability in Bound(granted, true) && inv.mutatesFS
    ensures var call := CallModel(exec, granted, true, true, m, key, inv, Success(json), home, SnapOf(since, debounce, snapshotOk));
            && call.0.home == home && |call.0.log| > |m.log|
            && (call.0.log[|call.0.log| - 1].Barrier? <==> since >= debounce && snapshotOk)
            && (since >= debounce && snapshotOk ==> !call.0.dirty && Restored(call.0.log) == home && call.1 == Answer(Ok(json)))
            && (since < debounce ==> call.0.dirty && call.1 == Answer(Ok(json)))
            && (since >= debounce && !snapshotOk ==> call.0.dirty && call.1 == SnapshotFailed)
  {
    var ran := RanModel(exec, m, key, inv, home);
    RanRestores(exec, m, key, inv, home);
    RecordRestores(exec, true, ran, key, inv, Success(json), SnapOf(since, debounce, snapshotOk));
    RecordLast(exec, ran, key, inv, Success(json), SnapOf(since, debounce, snapshotOk));
  }

  lemma RecordLast(exec: string, m: Med, key: string, inv: Invocation, o: Outcome, snap: Snap)
    requires Fits(m) && MarksDirty(true, inv, o)
    ensures var log := RecordModel(exec, true, m, key, inv, o, snap).log;
            |log| > |m.log| && (log[|log| - 1].Barrier? <==> snap.Taken?)
  {
    GrownFits(m, Result(0, ResultRecord(exec, key, inv, o)));
  }

  /** What a flush leaves: a clean flag and, behind the log, one barrier of the directory as it is, exactly
      when that was dirty and there is a sandbox; otherwise nothing changes. */
  lemma FlushIff(m: Med, sandbox: bool)
    requires Fits(m)
    ensures var f := FlushModel(m, sandbox);
            && (sandbox && m.dirty ==> f.log == m.log + [Barrier(|m.log|, m.home, m.view.cursor)] && !f.dirty && f.home == m.home && Restored(f.log) == m.home)
            && (!(sandbox && m.dirty) ==> f == m)
  {
    GrownRestores(m, Barrier(0, m.home, m.view.cursor));
  }

  // ---- A whole sequential attempt

  /** One call of an attempt, with what its executor would do. */
  datatype CallStep = CallStep(inv: Invocation, outcome: Outcome, home: string, snap: Snap)

  /** The mediator after the calls of a sequential script, made under keys "0", "1", ... */
  ghost function AfterCalls(exec: string, granted: set<string>, sandbox: bool, m: Med, steps: seq<CallStep>): (r: Med)
    requires Fits(m)
    ensures Fits(r)
  {
    if steps == [] then m else
      var n := |steps| - 1;
      CallModel(exec, granted, sandbox, true, AfterCalls(exec, granted, sandbox, m, steps[..n]),
                KeyUnder("", n), steps[n].inv, steps[n].outcome, steps[n].home, steps[n].snap).0
  }

  /** Every call that changes the directory says so and succeeds. */
  ghost predicate Honest(exec: string, granted: set<string>, sandbox: bool, m: Med, steps: seq<CallStep>)
    requires Fits(m)
  {
    forall i :: 0 <= i < |steps| ==>
      steps[i].home == AfterCalls(exec, granted, sandbox, m, steps[..i]).home || MarksDirty(sandbox, steps[i].inv, steps[i].outcome)
  }

  /** A sequential attempt that starts from the restored directory, makes any calls under any
      debounce, and flushes before parking, can be resumed on exactly the directory it parked with. */
  lemma {:induction false} ParkedHomeIsRestored(exec: string, granted: set<string>, m: Med, steps: seq<CallStep>)
    requires Fits(m) && HomeOk(m) && Honest(exec, granted, true, m, steps)
    ensures var parked := AfterCalls(exec, granted, true, m, steps);
            HomeOk(parked) && Restored(FlushModel(parked, true).log) == parked.home
    decreases |steps|
  {
    if steps != [] {
      var n := |steps| - 1;
      var before := AfterCalls(exec, granted, true, m, steps[..n]);
      assert Honest(exec, granted, true, m, steps[..n]) by {
        forall i | 0 <= i < n
          ensures steps[..n][i].home == AfterCalls(exec, granted, true, m, steps[..n][..i]).home
                  || MarksDirty(true, steps[..n][i].inv, steps[..n][i].outcome)
        {
          assert steps[..n][..i] == steps[..i];
        }
      }
      ParkedHomeIsRestored(exec, granted, m, steps[..n]);
      CallKeepsHome(exec, granted, true, before, KeyUnder("", n), steps[n].inv, steps[n].outcome, steps[n].home, steps[n].snap);
    }
    var parked := AfterCalls(exec, granted, true, m, steps);
    GrownRestores(parked, Barrier(0, parked.home, parked.view.cursor));
  }
}
