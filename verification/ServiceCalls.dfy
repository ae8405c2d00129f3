/** The service's view of a call - one answer more on the log, or a parked execution - is the
    mediator's call, and a run of steps of the replay system. */
module ServiceCalls {
  import opened Types
  import opened CallKeys
  import opened Logs
  import opened Scripts
  import opened Mediators
  import opened Positions
  import opened Platform
  import MediatedSteps
  import Replay

  /** What a mediator that has read the whole log knows. */
  ghost function ReadBack(log: seq<Event>, dirty: bool, home: string): Med {
    Med(log, View(|log|, MemoOf(log)), dirty, home)
  }

  lemma ReadBackFits(log: seq<Event>, dirty: bool, home: string)
    requires Dense(log)
    ensures Fits(ReadBack(log, dirty, home))
  {
  }

  lemma ReadBackGrows(log: seq<Event>, dirty: bool, home: string, ev: Event)
    requires Dense(log)
    ensures Grown(ReadBack(log, dirty, home), ev) == ReadBack(log + [Renumber(ev, |log|)], dirty, home)
  {
    var m := ReadBack(log, dirty, home);
    GrownAtEnd(m, ev);
    MemoSnoc(log, Renumber(ev, |log|));
  }

  /** The log once the executor has run. */
  lemma RanIsLogged(id: string, log: seq<Event>, dirty: bool, home: string, key: string, inv: Invocation, home': string)
    requires Dense(log)
    ensures RanModel(id, ReadBack(log, dirty, home), key, inv, home') == ReadBack(Logged(id, log, key, inv), dirty, home')
  {
    if !inv.idempotent { ReadBackGrows(log, dirty, home, Intent(0, CallRecord(id, key, inv))); }
  }

  /** The barrier a mediator writes behind a recorded change. */
  ghost function WithBarrier(log: seq<Event>, home: string): seq<Event> {
    log + [Barrier(|log|, home, |log|)]
  }

  lemma DenseSnoc(log: seq<Event>, ev: Event)
    requires Dense(log)
    ensures Dense(log + [Renumber(ev, |log|)])
  {
  }

  /** Recording an outcome on the log `ran`. */
  lemma RecordOn(id: string, sandbox: bool, ran: seq<Event>, dirty: bool, home: string, key: string, inv: Invocation, o: Outcome, snap: Snap)
    requires Dense(ran) && !o.Suspended?
    ensures var done := ran + [Result(|ran|, ResultRecord(id, key, inv, o))];
            RecordModel(id, sandbox, ReadBack(ran, dirty, home), key, inv, o, snap).log ==
            if MarksDirty(sandbox, inv, o) && snap.Taken? then WithBarrier(done, home) else done
  {
    var result := Result(0, ResultRecord(id, key, inv, o));
    var done := ran + [Renumber(result, |ran|)];
    ReadBackGrows(ran, dirty, home, result);
    DenseSnoc(ran, result);
    ReadBackGrows(done, dirty, home, Barrier(0, home, |done|));
  }

  lemma LoggedDense(id: string, log: seq<Event>, key: string, inv: Invocation)
    requires Dense(log)
    ensures Dense(Logged(id, log, key, inv))
  {
    DenseSnoc(log, Intent(0, CallRecord(id, key, inv)));
  }

  /** The log once the outcome is recorded. */
  lemma RecordIsAnswered(id: string, sandbox: bool, log: seq<Event>, dirty: bool, home: string, key: string, inv: Invocation, o: Outcome, snap: Snap)
    requires Dense(log) && !o.Suspended?
    ensures var ran, done := Logged(id, log, key, inv), Answered(id, log, key, inv, o);
            && Dense(ran)
            && RecordModel(id, sandbox, ReadBack(ran, dirty, home), key, inv, o, snap).log ==
               if MarksDirty(sandbox, inv, o) && snap.Taken? then WithBarrier(done, home) else done
  {
    LoggedDense(id, log, key, inv);
    RecordOn(id, sandbox, Logged(id, log, key, inv), dirty, home, key, inv, o, snap);
  }

  /** A call that replay can answer gets that answer from the mediator, and changes nothing. */
  lemma ReplayedCall(id: string, granted: set<string>, sandbox: bool, m: Med, ctr: nat, inv: Invocation, o: Outcome, home: string, snap: Snap)
    requires Fits(m) && AnswerAt(inv, ctr, Bound(granted, sandbox), m.view.memo).Some?
    requires Itoa(ctr) in m.view.memo ==> SameCall(m.view.memo[Itoa(ctr)], inv)
    ensures CallModel(id, granted, sandbox, true, m, Itoa(ctr), inv, o, home, snap) ==
            (m, Answer(AnswerAt(inv, ctr, Bound(granted, sandbox), m.view.memo).value))
  {
  }

  /** What the service takes a real call for: the log afterwards, and what the script gets. */
  ghost predicate Served(id: string, sandbox: bool, log: seq<Event>, ctr: nat, inv: Invocation, o: Outcome, home: string, snap: Snap,
                         log': seq<Event>, result: CallResult) {
    if o.Suspended? then log' == Logged(id, log, Itoa(ctr), inv) && result == Parked(o.workspace, o.wakeAt)
    else
      var done := Answered(id, log, Itoa(ctr), inv, o);
      && log' == (if MarksDirty(sandbox, inv, o) && snap.Taken? then WithBarrier(done, home) else done)
      && result == RecordResult(sandbox, inv, o, snap)
  }

  /** A barrier is nothing to replay. */
  lemma BarrierKeepsMemo(log: seq<Event>, home: string)
    ensures MemoOf(WithBarrier(log, home)) == MemoOf(log)
  {
    MemoSnoc(log, Barrier(|log|, home, |log|));
  }

  /** A call that replay cannot answer: the mediator leaves exactly the log the service goes on with,
      but for a barrier, and gives the script what the service does. */
  lemma RealCall(id: string, granted: set<string>, sandbox: bool, log: seq<Event>, dirty: bool, home: string, ctr: nat, inv: Invocation,
                 o: Outcome, home': string, snap: Snap)
    requires Dense(log) && AnswerAt(inv, ctr, Bound(granted, sandbox), MemoOf(log)).None?
    ensures var call := CallModel(id, granted, sandbox, true, ReadBack(log, dirty, home), Itoa(ctr), inv, o, home', snap);
            && Served(id, sandbox, log, ctr, inv, o, home', snap, call.0.log, call.1)
            && (!o.Suspended? ==> MemoOf(call.0.log) == MemoOf(Answered(id, log, Itoa(ctr), inv, o)))
  {
    RanIsLogged(id, log, dirty, home, Itoa(ctr), inv, home');
    if !o.Suspended? {
      RecordIsAnswered(id, sandbox, log, dirty, home', Itoa(ctr), inv, o, snap);
      BarrierKeepsMemo(Answered(id, log, Itoa(ctr), inv, o), home');
    }
  }

  /** The call an execution's replay stops at, made by the service, is a run of steps of the replay
      system with the same log, and leaves the script at the same place. */
  lemma ServiceCallIsSteps(id: string, job: Job, granted: set<string>, sandbox: bool, log: seq<Event>, dirty: bool, home: string,
                           s: Replay.State, r: nat, o: Outcome, home': string, snap: Snap) returns (t: Replay.State)
    requires LogFine(job, log) && job.granted == Bound(granted, sandbox) && o != Failure("") && Here(job, log).prog.Call?
    requires MediatedSteps.Stands(s, r, ReadBack(log, dirty, home), At(Here(job, log).prog, Here(job, log).ctr))
    ensures var pos, sys := Here(job, log), Replay.System(id, job.prog, job.granted, sandbox);
            var ls := MediatedSteps.CallSteps(sys, granted, r, ReadBack(log, dirty, home), pos.ctr, pos.prog.inv, o, home', snap);
            var call := CallModel(id, granted, sandbox, true, ReadBack(log, dirty, home), Itoa(pos.ctr), pos.prog.inv, o, home', snap);
            && MediatedSteps.GoesTo(sys, s, ls, t)
            && Served(id, sandbox, log, pos.ctr, pos.prog.inv, o, home', snap, call.0.log, call.1)
            && MediatedSteps.EndsAs(t, r, call.0, pos.prog, pos.ctr, o, call.1)
  {
    var pos := Here(job, log);
    StopKeeps(job.prog, 0, job.granted, MemoOf(log), job.calls);
    ReadBackFits(log, dirty, home);
    RealCall(id, granted, sandbox, log, dirty, home, pos.ctr, pos.prog.inv, o, home', snap);
    t := MediatedSteps.CallIsSteps(Replay.System(id, job.prog, job.granted, sandbox), granted, s, r, ReadBack(log, dirty, home), pos.prog, pos.ctr, o, home', snap);
  }
}
