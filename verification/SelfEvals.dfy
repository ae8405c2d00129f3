/** Evaluating a sequential run against its own recording reproduces it. */
module SelfEvals {
  import opened Types
  import opened CallKeys
  import opened Logs
  import opened Scripts
  import opened Replay
  import opened Cassettes
  import opened EvalMediators
  import opened GoldenLogs
  import Schedules
  import CanonKeys
  import ReplayInv
  import ReplaySteps

  /** The exchanges among recorded answers. */
  function TapeOf(m: Matching, recs: seq<RPCRecord>): seq<Entry> {
    if recs == [] then [] else
      var rec := recs[|recs| - 1];
      TapeOf(m, recs[..|recs| - 1]) + if IsHttp(m, rec) then [HttpEntry(m, rec)] else []
  }

  predicate IsHttp(m: Matching, rec: RPCRecord) {
    rec.capability == "http" && m.decode(rec.args).Some?
  }

  function HttpEntry(m: Matching, rec: RPCRecord): Entry
    requires IsHttp(m, rec)
  {
    var a := m.decode(rec.args).value;
    Entry(m.KeyOf(rec.operation, a.url, a.body), rec.operation, a.url, rec.result, rec.err)
  }

  lemma {:induction false} TapeIsExchanges(m: Matching, log: seq<Event>)
    ensures Exchanges(m, log) == TapeOf(m, Results(log))
  {
    if log != [] {
      var init, ev := log[..|log| - 1], log[|log| - 1];
      TapeIsExchanges(m, init);
      if ev.Result? {
        assert (Results(init) + [ev.rpc])[..|Results(init)|] == Results(init);
      } else {
        assert Results(log) == Results(init);
      }
    }
  }

  /** The evaluation's own trajectory step for a recorded answer: a recv's arguments are lost. */
  function EvalStepOf(rec: RPCRecord): TrajectoryStep {
    TrajectoryStep(rec.capability, rec.operation, if IsRecvRecord(rec) then "" else rec.args, rec.result, rec.err)
  }

  function EvalStepsOf(recs: seq<RPCRecord>): (steps: seq<TrajectoryStep>)
    ensures |steps| == |recs|
  {
    seq(|recs|, i requires 0 <= i < |recs| => EvalStepOf(recs[i]))
  }

  /** The script run against the evaluation mediator; `live` is what live executors answer at each
      call. None: the run was stopped at a boundary. */
  ghost function EvalRun(p: Prog, ctr: nat, c: Config, st: EvalState, live: nat -> Outcome): (EvalState, Option<Finish>)
    decreases p
  {
    match p
    case Ret(f) => (st, Some(f))
    case Par(_, _) => (st, None)
    case Call(inv, rest) =>
      var (st', r) := EvalCall(c, st, inv, World(live(ctr), false, "", None));
      match r
      case Halted(_) => (st', None)
      case Gave(resp) => if resp in rest then EvalRun(rest[resp], ctr + 1, c, st', live) else (st', Some(NO_CONTINUATION.finish))
  }

  /** Calls on the script's way, answered or ungranted. */
  ghost function CallsMade(p: Prog, ctr: nat, c: Ctx): nat
    decreases p
  {
    match p
    case Ret(_) => 0
    case Par(_, _) => 0
    case Call(inv, rest) =>
      var known := Known(inv, Dotted([ctr]), c);
      if known.None? then 0 else 1 + if known.value in rest then CallsMade(rest[known.value], ctr + 1, c) else 0
  }

  /** What the recorded run must be like, call by call: no clock or random calls; http calls
      granted and parseable; every other recorded answer a success, and the live executors'
      answer again. */
  ghost predicate CallReproducible(m: Matching, inv: Invocation, ctr: nat, c: Ctx, live: nat -> Outcome) {
    && inv.capability !in {"time", "rand"}
    && (inv.capability == "http" ==> inv.capability in c.granted && m.decode(inv.args).Some?)
    && (inv.capability == "inbox" ==> inv.capability in c.granted)
    && (inv.capability in c.granted && inv.capability != "http" && Dotted([ctr]) in c.memo ==>
          c.memo[Dotted([ctr])].err == "" && live(ctr) == Success(c.memo[Dotted([ctr])].result))
  }

  /** ... for all calls of the run that answers from `c`. */
  ghost predicate Reproducible(m: Matching, p: Prog, ctr: nat, c: Ctx, live: nat -> Outcome)
    decreases p
  {
    p.Call? ==>
      && CallReproducible(m, p.inv, ctr, c, live)
      && (Known(p.inv, Dotted([ctr]), c).Some? && Known(p.inv, Dotted([ctr]), c).value in p.rest ==>
            Reproducible(m, p.rest[Known(p.inv, Dotted([ctr]), c).value], ctr + 1, c, live))
  }

  ghost predicate RecordFits(rec: RPCRecord, inv: Invocation) {
    SameCall(rec, inv) && rec.args == inv.args && (rec.err != "" ==> rec.result == "")
  }

  /** The records the run meets were made for its calls. */
  ghost predicate RecordsFit(p: Prog, ctr: nat, c: Ctx)
    decreases p
  {
    p.Call? ==>
      && (p.inv.capability in c.granted && Dotted([ctr]) in c.memo ==> RecordFits(c.memo[Dotted([ctr])], p.inv))
      && (Known(p.inv, Dotted([ctr]), c).Some? && Known(p.inv, Dotted([ctr]), c).value in p.rest ==> RecordsFit(p.rest[Known(p.inv, Dotted([ctr]), c).value], ctr + 1, c))
  }

  /** The evaluation set up from the recording, with the default policy. */
  ghost predicate OwnConfig(cfg: Config, recs: seq<RPCRecord>, granted: set<string>) {
    && cfg.env == granted && cfg.policy == DEFAULT_POLICY && !cfg.simulated
    && cfg.tape == TapeOf(cfg.matching, recs) && cfg.recvs == RecvResults(recs)
  }

  /** The state after the first `i` recorded answers were reproduced. */
  ghost predicate Reproduced(cfg: Config, recs: seq<RPCRecord>, i: nat, st: EvalState)
    requires i <= |recs|
  {
    && st.stop.None? && st.executed == i && st.traj == EvalStepsOf(recs[..i])
    && st.recvPos == |RecvResults(recs[..i])|
    && st.served == CursorAfter(cfg.tape, KeysOf(TapeOf(cfg.matching, recs[..i])))
  }

  // ---- One call

  lemma EvalStepsSnoc(recs: seq<RPCRecord>, i: nat)
    requires i < |recs|
    ensures EvalStepsOf(recs[..i + 1]) == EvalStepsOf(recs[..i]) + [EvalStepOf(recs[i])]
  {
  }

  lemma TapeSnoc(m: Matching, recs: seq<RPCRecord>, i: nat)
    requires i < |recs|
    ensures TapeOf(m, recs[..i + 1]) == TapeOf(m, recs[..i]) + if IsHttp(m, recs[i]) then [HttpEntry(m, recs[i])] else []
  {
    assert recs[..i + 1][..i] == recs[..i];
  }

  lemma RecvSnoc(recs: seq<RPCRecord>, i: nat)
    requires i < |recs|
    ensures RecvResults(recs[..i + 1]) == RecvResults(recs[..i]) + if IsRecvRecord(recs[i]) then [recs[i].result] else []
  {
    assert recs[..i + 1][..i] == recs[..i];
  }

  lemma {:induction false} TapePrefix(m: Matching, recs: seq<RPCRecord>, i: nat)
    requires i <= |recs|
    ensures TapeOf(m, recs[..i]) <= TapeOf(m, recs)
    decreases |recs|
  {
    if i == |recs| {
      assert recs[..i] == recs;
    } else {
      var init := recs[..|recs| - 1];
      assert init[..i] == recs[..i];
      TapePrefix(m, init, i);
    }
  }

  lemma {:induction false} RecvPrefix(recs: seq<RPCRecord>, i: nat)
    requires i <= |recs|
    ensures RecvResults(recs[..i]) <= RecvResults(recs)
    decreases |recs|
  {
    if i == |recs| {
      assert recs[..i] == recs;
    } else {
      var init := recs[..|recs| - 1];
      assert init[..i] == recs[..i];
      RecvPrefix(init, i);
    }
  }

  /** A call that is not on the tape leaves the tape's cursor where it is. */
  lemma KeepsTape(cfg: Config, recs: seq<RPCRecord>, i: nat, st: EvalState, st': EvalState)
    requires i < |recs| && Reproduced(cfg, recs, i, st) && !IsHttp(cfg.matching, recs[i])
    requires st'.stop.None? && st'.executed == i + 1 && st'.traj == st.traj + [EvalStepOf(recs[i])] && st'.served == st.served
    requires st'.recvPos == st.recvPos + if IsRecvRecord(recs[i]) then 1 else 0
    ensures Reproduced(cfg, recs, i + 1, st')
  {
    EvalStepsSnoc(recs, i);
    TapeSnoc(cfg.matching, recs, i);
    RecvSnoc(recs, i);
    assert TapeOf(cfg.matching, recs[..i + 1]) == TapeOf(cfg.matching, recs[..i]);
  }

  /** The state once a call was charged for. */
  ghost function Charged(st: EvalState): EvalState {
    st.(steps := st.steps + 1)
  }

  ghost predicate RoomLeft(cfg: Config, st: EvalState, calls: nat) {
    cfg.maxSteps > 0 ==> st.steps + calls <= cfg.maxSteps
  }

  lemma RecvReproduced(cfg: Config, recs: seq<RPCRecord>, i: nat, st: EvalState, inv: Invocation)
    requires i < |recs| && Reproduced(cfg, recs, i, st) && IsRecvRecord(recs[i]) && recs[i].err == ""
    requires !cfg.simulated && cfg.recvs == RecvResults(recs)
    ensures var (st', r) := EvalMediators.RecvModel(cfg, st, None); Reproduced(cfg, recs, i + 1, st') && r == Gave(Ok(recs[i].result)) && st'.steps == st.steps
  {
    RecvSnoc(recs, i);
    RecvPrefix(recs, i + 1);
    assert cfg.recvs[st.recvPos] == recs[i].result;
    KeepsTape(cfg, recs, i, st, EvalMediators.RecvModel(cfg, st, None).0);
  }

  lemma LiveReproduced(cfg: Config, recs: seq<RPCRecord>, i: nat, st: EvalState, inv: Invocation)
    requires i < |recs| && Reproduced(cfg, recs, i, st) && inv.capability in cfg.env && RecordFits(recs[i], inv)
    requires inv.capability != "http" && !(inv.capability == "inbox" && inv.operation == "recv") && recs[i].err == ""
    ensures var (st', r) := LiveModel(cfg, st, inv, Success(recs[i].result));
            Reproduced(cfg, recs, i + 1, st') && r == Gave(Ok(recs[i].result)) && st'.steps == st.steps
  {
    KeepsTape(cfg, recs, i, st, LiveModel(cfg, st, inv, Success(recs[i].result)).0);
  }

  /** The i-th recorded answer, an exchange, is what the tape serves next. */
  lemma TapeServes(cfg: Config, recs: seq<RPCRecord>, i: nat, j: nat)
    requires i < |recs| && IsHttp(cfg.matching, recs[i]) && cfg.tape == TapeOf(cfg.matching, recs)
    requires j == |TapeOf(cfg.matching, recs[..i])|
    ensures j < |cfg.tape| && cfg.tape[j] == HttpEntry(cfg.matching, recs[i])
    ensures KeysOf(cfg.tape)[..j] == KeysOf(TapeOf(cfg.matching, recs[..i]))
    ensures KeysOf(TapeOf(cfg.matching, recs[..i + 1])) == KeysOf(TapeOf(cfg.matching, recs[..i])) + [cfg.tape[j].key]
  {
    TapeSnoc(cfg.matching, recs, i);
    TapePrefix(cfg.matching, recs, i + 1);
    assert TapeOf(cfg.matching, recs[..i + 1])[j] == cfg.tape[j];
    forall k | 0 <= k < j ensures TapeOf(cfg.matching, recs[..i])[k] == cfg.tape[k] {
      assert TapeOf(cfg.matching, recs[..i + 1])[k] == TapeOf(cfg.matching, recs[..i])[k];
    }
  }

  lemma CursorSnoc(entries: seq<Entry>, keys: seq<CanonKeys.Key>, key: CanonKeys.Key)
    ensures CursorAfter(entries, keys + [key]) == LookupModel(entries, CursorAfter(entries, keys), key).1
  {
    assert (keys + [key])[..|keys|] == keys;
  }

  lemma HttpReproduced(cfg: Config, recs: seq<RPCRecord>, i: nat, st: EvalState, inv: Invocation, o: Outcome)
    requires i < |recs| && Reproduced(cfg, recs, i, st) && RecordFits(recs[i], inv)
    requires inv.capability == "http" && cfg.matching.decode(inv.args).Some? && cfg.tape == TapeOf(cfg.matching, recs)
    ensures var (st', r) := HttpModel(cfg, st, inv, o);
            Reproduced(cfg, recs, i + 1, st') && r == Gave(Replayed(inv, recs[i])) && st'.steps == st.steps
  {
    var j := |TapeOf(cfg.matching, recs[..i])|;
    var earlier := KeysOf(TapeOf(cfg.matching, recs[..i]));
    TapeServes(cfg, recs, i, j);
    PlaceOf(cfg.tape, j);
    LookupGives(cfg.tape, earlier, cfg.tape[j].key, j);
    CursorSnoc(cfg.tape, earlier, cfg.tape[j].key);
    EvalStepsSnoc(recs, i);
    RecvSnoc(recs, i);
  }

  lemma ChargedFits(cfg: Config, recs: seq<RPCRecord>, i: nat, st: EvalState)
    requires i <= |recs| && Reproduced(cfg, recs, i, st) && RoomLeft(cfg, st, 1)
    ensures ChargeModel(cfg, st, false) == Charged(st) && Reproduced(cfg, recs, i, Charged(st))
  {
  }

  /** Under the default policy: http from the tape, recv from the recording, the rest live. */
  lemma Dispatched(cfg: Config, st: EvalState, inv: Invocation, o: Outcome)
    requires cfg.policy == DEFAULT_POLICY && inv.capability !in {"time", "rand"} && st.stop.None? && ChargeModel(cfg, st, false) == Charged(st)
    ensures EvalCall(cfg, st, inv, World(o, false, "", None)) ==
            if inv.capability == "http" then HttpModel(cfg, Charged(st), inv, o)
            else if inv.capability == "inbox" && inv.operation == "recv" then EvalMediators.RecvModel(cfg, Charged(st), None)
            else LiveModel(cfg, Charged(st), inv, o)
  {
  }

  /** A granted call whose answer was recorded is answered alike, and recorded alike. */
  lemma CallReproduced(cfg: Config, recs: seq<RPCRecord>, i: nat, st: EvalState, inv: Invocation, ctr: nat, c: Ctx, live: nat -> Outcome)
    requires OwnConfig(cfg, recs, c.granted) && i < |recs| && Reproduced(cfg, recs, i, st) && RoomLeft(cfg, st, 1)
    requires inv.capability in c.granted && Dotted([ctr]) in c.memo && recs[i] == c.memo[Dotted([ctr])]
    requires RecordFits(recs[i], inv) && CallReproducible(cfg.matching, inv, ctr, c, live)
    ensures var (st', r) := EvalCall(cfg, st, inv, World(live(ctr), false, "", None));
            Reproduced(cfg, recs, i + 1, st') && r == Gave(Replayed(inv, recs[i])) && st'.steps == st.steps + 1
  {
    ChargedFits(cfg, recs, i, st);
    Dispatched(cfg, st, inv, live(ctr));
    if inv.capability == "http" {
      HttpReproduced(cfg, recs, i, Charged(st), inv, live(ctr));
    } else if inv.capability == "inbox" && inv.operation == "recv" {
      RecvReproduced(cfg, recs, i, Charged(st), inv);
    } else {
      LiveReproduced(cfg, recs, i, Charged(st), inv);
    }
  }

  /** An ungranted call is refused alike, and recorded in neither run. */
  lemma RefusalReproduced(cfg: Config, recs: seq<RPCRecord>, i: nat, st: EvalState, inv: Invocation, ctr: nat, c: Ctx, live: nat -> Outcome)
    requires OwnConfig(cfg, recs, c.granted) && i <= |recs| && Reproduced(cfg, recs, i, st) && RoomLeft(cfg, st, 1)
    requires inv.capability !in c.granted && CallReproducible(cfg.matching, inv, ctr, c, live)
    ensures EvalCall(cfg, st, inv, World(live(ctr), false, "", None)) == (Charged(st), Gave(NotGranted(inv)))
    ensures Reproduced(cfg, recs, i, Charged(st))
  {
    ChargedFits(cfg, recs, i, st);
  }

  // ---- The whole run

  /** From any point of the run on: the evaluation reaches the same end and records the rest. */
  lemma {:induction false} SelfEvalFrom(cfg: Config, recs: seq<RPCRecord>, i: nat, p: Prog, ctr: nat, c: Ctx, st: EvalState, live: nat -> Outcome)
    requires Sequential(p) && OwnConfig(cfg, recs, c.granted) && i <= |recs| && recs[i..] == Trace(p, ctr, c)
    requires Reproduced(cfg, recs, i, st) && RoomLeft(cfg, st, CallsMade(p, ctr, c))
    requires Reproducible(cfg.matching, p, ctr, c, live) && RecordsFit(p, ctr, c) && RefRun(p, [], ctr, c).Some?
    ensures var (st', out) := EvalRun(p, ctr, cfg, st, live); out == RefRun(p, [], ctr, c) && Reproduced(cfg, recs, |recs|, st')
    decreases p
  {
    assert [] + [ctr] == [ctr];
    match p
    case Ret(_) => assert recs[i..] == [];
    case Call(inv, rest) =>
      var (st', reply) := EvalCall(cfg, st, inv, World(live(ctr), false, "", None));
      if inv.capability !in c.granted {
        RefusalReproduced(cfg, recs, i, st, inv, ctr, c, live);
        if NotGranted(inv) in rest { SelfEvalFrom(cfg, recs, i, rest[NotGranted(inv)], ctr + 1, c, st', live); } else { assert recs[i..] == []; }
      } else {
        var r := Replayed(inv, c.memo[Dotted([ctr])]);
        assert recs[i] == recs[i..][0];
        CallReproduced(cfg, recs, i, st, inv, ctr, c, live);
        assert recs[i + 1..] == recs[i..][1..];
        if r in rest { SelfEvalFrom(cfg, recs, i + 1, rest[r], ctr + 1, c, st', live); } else { assert |recs[i..]| == 1; }
      }
  }

  // ---- Records of a real history

  lemma RecordOfHistory(sys: System, ls: seq<Label>, ctr: nat, inv: Invocation)
    requires Legal(sys, ls) && Dotted([ctr]) in MemoOf(Play(sys, ls).log)
    requires InvAt(sys.prog, [], 0, ReplayInv.CtxOf(sys, MemoOf(Play(sys, ls).log)), [ctr]) == Some(inv)
    ensures RecordFits(MemoOf(Play(sys, ls).log)[Dotted([ctr])], inv)
  {
    var s := Play(sys, ls);
    ReplaySteps.PlayKeeps(sys, ls);
    Schedules.PlayKeepsSourced(sys, ls);
    var k := MemoIsRecorded(s.log, Dotted([ctr]));
    assert ReplayInv.RecordOk(sys, MemoOf(s.log), s.log[k].rpc);
    ReplayInv.DueAt(sys, MemoOf(s.log), [ctr]);
    var j :| 0 <= j < |s.execs| && Schedules.Yields(sys, s.execs[j], s.log[k].rpc.callKey, s.execs[j].inv, s.log[k].rpc)
             && ReplayInv.DueInv(sys, MemoOf(s.log), s.log[k].rpc.callKey) == Some(s.execs[j].inv);
  }

  lemma {:induction false} HistoryFits(sys: System, ls: seq<Label>, p: Prog, ctr: nat)
    requires Legal(sys, ls) && Sequential(p)
    requires var c := ReplayInv.CtxOf(sys, MemoOf(Play(sys, ls).log));
             forall i: nat :: i >= ctr && InvAt(p, [], ctr, c, [i]).Some? ==> InvAt(sys.prog, [], 0, c, [i]) == InvAt(p, [], ctr, c, [i])
    ensures RecordsFit(p, ctr, ReplayInv.CtxOf(sys, MemoOf(Play(sys, ls).log)))
    decreases p
  {
    var c := ReplayInv.CtxOf(sys, MemoOf(Play(sys, ls).log));
    if p.Call? {
      assert [] + [ctr] == [ctr];
      assert InvAt(p, [], ctr, c, [ctr]) == Some(p.inv);
      if p.inv.capability in c.granted && Dotted([ctr]) in c.memo { RecordOfHistory(sys, ls, ctr, p.inv); }
      if Known(p.inv, Dotted([ctr]), c).Some? && Known(p.inv, Dotted([ctr]), c).value in p.rest {
        var r := Known(p.inv, Dotted([ctr]), c).value;
        assert forall i: nat :: i >= ctr + 1 ==> InvAt(p, [], ctr, c, [i]) == InvAt(p.rest[r], [], ctr + 1, c, [i]);
        HistoryFits(sys, ls, p.rest[r], ctr + 1);
      }
    }
  }

  /** The same for a complete run from its own recording. */
  lemma RunReproduced(cfg: Config, recs: seq<RPCRecord>, p: Prog, c: Ctx, live: nat -> Outcome)
    requires Sequential(p) && OwnConfig(cfg, recs, c.granted) && recs == Trace(p, 0, c) && RoomLeft(cfg, START, CallsMade(p, 0, c))
    requires Reproducible(cfg.matching, p, 0, c, live) && RecordsFit(p, 0, c) && RefRun(p, [], 0, c).Some?
    ensures var (st, out) := EvalRun(p, 0, cfg, START, live);
            && out == RefRun(p, [], 0, c) && st.stop.None? && st.traj == EvalStepsOf(recs) && st.executed == |recs|
  {
    StartReproduced(cfg, recs);
    assert recs[0..] == recs && recs[..|recs|] == recs;
    SelfEvalFrom(cfg, recs, 0, p, 0, c, START, live);
  }

  /** Self-evaluation is the identity. Take any finished history of a sequential script, however
      often it crashed or parked, without clock or random calls, whose http calls were granted and
      parse, and whose other recorded calls succeeded. Evaluated against its own tape and recvs,
      live executors answering as recorded and no cap tripping, the script reaches the same end,
      is never stopped, executes exactly the recorded calls - in the log's order, with the log's
      results - and covers them all. Only the arguments of recv are lost on the way. */
  lemma SelfEvaluation(sys: System, ls: seq<Label>, cfg: Config, live: nat -> Outcome)
    requires Legal(sys, ls) && Sequential(sys.prog) && Play(sys, ls).outputs != []
    requires OwnConfig(cfg, Results(Play(sys, ls).log), sys.granted)
    requires var c := ReplayInv.CtxOf(sys, MemoOf(Play(sys, ls).log));
             Reproducible(cfg.matching, sys.prog, 0, c, live) && RoomLeft(cfg, START, CallsMade(sys.prog, 0, c))
    ensures var (st, out) := EvalRun(sys.prog, 0, cfg, START, live); var recs := Results(Play(sys, ls).log);
            && out == Some(Play(sys, ls).outputs[0]) && st.stop.None?
            && st.traj == EvalStepsOf(recs) && st.executed == |recs|
            && (recs != [] ==> Coverage(st.executed, |recs|) == 1.0)
  {
    var c, recs := ReplayInv.CtxOf(sys, MemoOf(Play(sys, ls).log)), Results(Play(sys, ls).log);
    HistoryFacts(sys, ls);
    RunReproduced(cfg, recs, sys.prog, c, live);
  }

  lemma HistoryFacts(sys: System, ls: seq<Label>)
    requires Legal(sys, ls) && Sequential(sys.prog) && Play(sys, ls).outputs != []
    ensures var s := Play(sys, ls); var c := ReplayInv.CtxOf(sys, MemoOf(s.log));
            && RefRun(sys.prog, [], 0, c) == Some(s.outputs[0])
            && RecordsFit(sys.prog, 0, c) && Results(s.log) == Trace(sys.prog, 0, c)
  {
    ReplaySteps.PlayKeeps(sys, ls);
    LogInCallOrder(sys, ls);
    HistoryFits(sys, ls, sys.prog, 0);
  }

  lemma StartReproduced(cfg: Config, recs: seq<RPCRecord>)
    ensures Reproduced(cfg, recs, 0, START)
  {
    assert recs[..0] == [];
  }

  /** The evaluated trajectory is outright the one read from the log exactly when no recorded recv
      had arguments. */
  lemma SameTrajectoryIff(recs: seq<RPCRecord>)
    ensures EvalStepsOf(recs) == StepsOf(recs) <==> forall i :: 0 <= i < |recs| && IsRecvRecord(recs[i]) ==> recs[i].args == ""
  {
    var a, b := EvalStepsOf(recs), StepsOf(recs);
    if a == b {
      forall i | 0 <= i < |recs| && IsRecvRecord(recs[i]) ensures recs[i].args == "" { assert a[i] == b[i]; }
    }
    if forall i :: 0 <= i < |recs| && IsRecvRecord(recs[i]) ==> recs[i].args == "" {
      forall i | 0 <= i < |recs| ensures a[i] == b[i] {}
    }
  }

  /** A recorded recv shows the difference: its arguments are in the log's step and not in the
      evaluation's. */
  lemma RecvArgsDropped(exec: string, key: string)
    ensures var rec := ResultRecord(exec, key, Invocation("inbox", "recv", "{\"deadline\":0}", true, false), Success("\"hello\""));
            && EvalStepsOf([rec]) == [TrajectoryStep("inbox", "recv", "", "\"hello\"", "")]
            && StepsOf([rec]) == [TrajectoryStep("inbox", "recv", "{\"deadline\":0}", "\"hello\"", "")]
            && EvalStepsOf([rec]) != StepsOf([rec])
  {
    var rec := ResultRecord(exec, key, Invocation("inbox", "recv", "{\"deadline\":0}", true, false), Success("\"hello\""));
    SameTrajectoryIff([rec]);
    assert IsRecvRecord([rec][0]);
  }
}
