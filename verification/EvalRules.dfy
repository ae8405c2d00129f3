/** What each kind of call is given in an evaluation, case by case and exactly. */
module EvalRules {
  import opened Types
  import opened Cassettes
  import opened EvalMediators
  import CanonKeys

  /** The caps leave room for one more call of a run that has not been stopped. */
  ghost predicate Going(c: Config, st: EvalState, w: World) {
    st.stop.None? && !w.late && (c.maxSteps == 0 || st.steps < c.maxSteps)
  }

  /** A run's first stop by its caps: exactly when the step cap is used up or the wall clock has run
      out, before anything is looked up or executed. */
  lemma CapsStopIff(c: Config, st: EvalState, inv: Invocation, w: World)
    requires st.stop.None?
    ensures var (st', r) := EvalCall(c, st, inv, w);
            && ((st'.stop.Some? && st'.stop.value.kind == OverBudget) <==> !Going(c, st, w))
            && (!Going(c, st, w) ==> r == Halted(st'.stop.value) && st' == st.(steps := st.steps + 1, stop := st'.stop))
  {
  }

  /** What a call that runs live is given: its executor's result, recorded, or its error, not recorded;
      without an executor it is refused and nothing runs. */
  ghost predicate RunsLive(c: Config, st: EvalState, inv: Invocation, o: Outcome, st': EvalState, r: Reply) {
    && st'.stop == st.stop && st'.recvPos == st.recvPos
    && st'.ran == (if inv.capability in c.env then st.ran + [inv] else st.ran)
    && (inv.capability !in c.env ==> r == Gave(CallError(inv.capability, inv.operation, NOT_GRANTED)) && st'.traj == st.traj && st'.executed == st.executed)
    && (inv.capability in c.env && o.Success? ==>
          r == Gave(Ok(o.json)) && st'.executed == st.executed + 1
          && st'.traj == st.traj + [TrajectoryStep(inv.capability, inv.operation, inv.args, o.json, "")])
    && (inv.capability in c.env && o.Failure? ==>
          r == Gave(CallError(inv.capability, inv.operation, o.msg)) && st'.traj == st.traj && st'.executed == st.executed)
  }

  /** A capability without a policy, or with the live one. */
  lemma LiveCalls(c: Config, st: EvalState, inv: Invocation, w: World)
    requires Going(c, st, w) && (inv.capability in c.policy ==> c.policy[inv.capability] == Live)
    ensures var (st', r) := EvalCall(c, st, inv, w); RunsLive(c, st, inv, w.outcome, st', r) && st'.served == st.served
  {
  }

  /** A simulated capability's other calls, like sending, run live too. */
  lemma SimulatedOthers(c: Config, st: EvalState, inv: Invocation, w: World)
    requires Going(c, st, w) && inv.capability in c.policy && c.policy[inv.capability] == Simulate
    requires inv.capability != "inbox" || inv.operation != "recv"
    ensures var (st', r) := EvalCall(c, st, inv, w); RunsLive(c, st, inv, w.outcome, st', r) && st'.served == st.served
  {
  }

  /** The user channel: the next recorded answer while there is one, a boundary after the last; with a
      simulator, its answer, or a boundary if it fails. No executor runs. */
  lemma Receives(c: Config, st: EvalState, inv: Invocation, w: World)
    requires Going(c, st, w) && inv.capability in c.policy && c.policy[inv.capability] == Simulate
    requires inv.capability == "inbox" && inv.operation == "recv"
    ensures var (st', r) := EvalCall(c, st, inv, w); var played := !c.simulated && st.recvPos < |c.recvs|;
            && st'.ran == st.ran
            && (st'.stop.None? <==> played || (c.simulated && w.answer.Some?))
            && (played ==> r == Gave(Ok(c.recvs[st.recvPos])) && st'.recvPos == st.recvPos + 1)
            && (c.simulated && w.answer.Some? ==> r == Gave(Ok(w.answer.value)) && st'.recvPos == st.recvPos)
            && (st'.stop.Some? ==> st'.stop.value.kind == RecvExhausted && r == Halted(st'.stop.value) && st'.traj == st.traj)
            && (r.Gave? ==> st'.traj == st.traj + [TrajectoryStep("inbox", "recv", "", r.resp.json, "")])
  {
  }

  /** Pinned calls: the fixed time for the clock, the pinned value for random, null for the rest. */
  lemma PinnedCalls(c: Config, st: EvalState, inv: Invocation, w: World)
    requires Going(c, st, w) && inv.capability in c.policy && c.policy[inv.capability] == Pinned
    ensures var (st', r) := EvalCall(c, st, inv, w);
            && st'.ran == st.ran && st'.stop.None? && r.Gave? && r.resp.Ok?
            && st'.traj == st.traj + [TrajectoryStep(inv.capability, inv.operation, inv.args, r.resp.json, "")]
            && (inv.capability == "time" && inv.operation == "now" ==> r.resp.json == "1735689600000000000")
            && (inv.capability == "rand" ==> r.resp.json == w.pin)
            && (inv.capability == "time" && inv.operation != "now" ==> r.resp.json == "null")
  {
  }

  ghost predicate Taped(c: Config, st: EvalState, inv: Invocation, w: World) {
    Going(c, st, w) && inv.capability in c.policy && c.policy[inv.capability] == FromCassette
  }

  /** The request an entry of the tape answers is this one. */
  ghost predicate Answers(c: Config, e: Entry, inv: Invocation, a: HttpArgs) {
    e.key == CanonKeys.CanonKey(c.matching.opts, inv.operation, c.matching.parse(a.url), a.body)
  }

  /** A request that was never recorded: the run stops exactly for a write that may not go live;
      anything else goes live, and is given what its executor gives. */
  lemma MissGoesLiveIff(c: Config, st: EvalState, inv: Invocation, w: World, a: HttpArgs)
    requires Taped(c, st, inv, w) && c.matching.decode(inv.args) == Some(a)
    requires forall i :: 0 <= i < |c.tape| ==> !Answers(c, c.tape[i], inv, a)
    ensures var (st', r) := EvalCall(c, st, inv, w); var forbidden := c.isWrite(inv.operation, inv.args) && c.missPolicy != MissGoLive;
            && (st'.stop.Some? <==> forbidden)
            && (forbidden ==> st'.stop.value.detail == (if c.missPolicy == MissFlag then "flagged for human: " else "") + inv.operation + " " + a.url + " has no recorded response")
            && (forbidden ==> st'.stop.value.kind == WriteMiss && r == Halted(st'.stop.value) && st'.ran == st.ran && st'.traj == st.traj)
            && (!forbidden ==> RunsLive(c, st, inv, w.outcome, st', r))
  {
    var key := c.matching.KeyOf(inv.operation, a.url, a.body);
    HitsIffRecorded(c.tape, st.served, key);
  }

  /** The answer an entry of the tape gives, recorded as it is. */
  ghost predicate Served(st: EvalState, inv: Invocation, e: Entry, st': EvalState, r: Reply) {
    && r == (if e.err == "" then Gave(Ok(e.result)) else Gave(CallError("http", inv.operation, e.err)))
    && st'.traj == st.traj + [TrajectoryStep(inv.capability, inv.operation, inv.args, if e.err == "" then e.result else "", e.err)]
  }

  /** A recorded request is answered from the tape, by an entry for that very request, be it a read or
      a write; nothing runs and the run goes on. */
  lemma HitIsServed(c: Config, st: EvalState, inv: Invocation, w: World, a: HttpArgs)
    requires Taped(c, st, inv, w) && c.matching.decode(inv.args) == Some(a)
    requires exists i :: 0 <= i < |c.tape| && Answers(c, c.tape[i], inv, a)
    ensures var (st', r) := EvalCall(c, st, inv, w);
            && st'.ran == st.ran && st'.stop.None?
            && exists i :: 0 <= i < |c.tape| && Answers(c, c.tape[i], inv, a) && Served(st, inv, c.tape[i], st', r)
  {
    var key := c.matching.KeyOf(inv.operation, a.url, a.body);
    HitsIffRecorded(c.tape, st.served, key);
    var place := LookupModel(c.tape, st.served, key).0;
    LookupInBounds(c.tape, st.served, key);
    LookedUpEntry(c.tape, st.served, key);
    var (st', r) := EvalCall(c, st, inv, w);
    assert Answers(c, c.tape[place.value], inv, a) && Served(st, inv, c.tape[place.value], st', r);
  }

  lemma LookedUpEntry(entries: seq<Entry>, cursor: Cursor, key: CanonKeys.Key)
    requires LookupModel(entries, cursor, key).0.Some?
    ensures var i := LookupModel(entries, cursor, key).0.value; i < |entries| && entries[i].key == key
  {
    var ps := Places(entries, key);
    PlacesSound(entries, key, if ServedOf(cursor, key) >= |ps| then |ps| - 1 else ServedOf(cursor, key));
  }

  /** Unreadable arguments are an error for the script; nothing is looked up or run. */
  lemma BadArguments(c: Config, st: EvalState, inv: Invocation, w: World)
    requires Taped(c, st, inv, w) && c.matching.decode(inv.args) == None
    ensures var (st', r) := EvalCall(c, st, inv, w); r == Gave(CallError("http", inv.operation, BAD_ARGS)) && st' == st.(steps := st.steps + 1)
  {
  }
}
