/** The evaluation mediator: replays a golden run's external effects, stops for good at the
    first boundary, and keeps the evidence of what ran. */
module EvalMediators {
  import opened Types
  import opened Cassettes
  import CallKeys

  datatype Mode = Live | FromCassette | Pinned | Simulate

  datatype MissPolicy = MissFail | MissGoLive | MissFlag

  datatype StopKind = WriteMiss | RecvExhausted | OverBudget

  datatype Stop = Stop(kind: StopKind, detail: string)

  /** One recorded call of the evaluated run. */
  datatype TrajectoryStep = TrajectoryStep(capability: string, operation: string, args: string, result: string, err: string)

  /** What the script gets from a call: an answer, or the boundary that ended the run. */
  datatype Reply = Gave(resp: Response) | Halted(stop: Stop)

  /** `env`: capabilities with a live executor; `maxSteps` 0 means no cap; with a simulator the
      recorded recvs are not used. */
  datatype Config = Config(
    env: set<string>, policy: map<string, Mode>, matching: Matching, tape: seq<Entry>,
    isWrite: (string, string) -> bool, missPolicy: MissPolicy, recvs: seq<string>, simulated: bool, maxSteps: nat)

  /** What the world contributes to one call: what its live executor would answer, whether the
      wall clock has run out, the pinned value, and the simulator's answer or failure. */
  datatype World = World(outcome: Outcome, late: bool, pin: string, answer: Option<string>)

  /** `served`: how often each request was asked of the tape; `ran`: the calls whose executor really ran. */
  datatype EvalState = EvalState(
    steps: nat, executed: nat, recvPos: nat, stop: Option<Stop>, traj: seq<TrajectoryStep>, served: Cursor, ran: seq<Invocation>)

  const START := EvalState(0, 0, 0, None, [], map[], [])

  const DEFAULT_POLICY := map["llm" := Live, "http" := FromCassette, "shell" := Live, "time" := Pinned, "rand" := Pinned, "inbox" := Simulate]

  function ModeOf(c: Config, capability: string): Mode {
    if capability in c.policy then c.policy[capability] else Live
  }

  function Noted(st: EvalState, step: TrajectoryStep): EvalState {
    st.(executed := st.executed + 1, traj := st.traj + [step])
  }

  /** The first boundary stays. */
  function Stopped(st: EvalState, kind: StopKind, detail: string): EvalState {
    if st.stop.Some? then st else st.(stop := Some(Stop(kind, detail)))
  }

  function Halt(st: EvalState): Reply
    requires st.stop.Some?
  {
    Halted(st.stop.value)
  }

  function StepOf(inv: Invocation, result: string, err: string): TrajectoryStep {
    TrajectoryStep(inv.capability, inv.operation, inv.args, result, err)
  }

  /** Step and wall-clock guardrails. */
  function ChargeModel(c: Config, st: EvalState, late: bool): EvalState {
    if st.stop.Some? then st
    else
      var charged := st.(steps := st.steps + 1);
      if c.maxSteps > 0 && charged.steps > c.maxSteps then Stopped(charged, OverBudget, "exceeded " + CallKeys.Itoa(c.maxSteps) + " steps")
      else if late then Stopped(charged, OverBudget, "exceeded wall-clock cap")
      else charged
  }

  /** The bound executor for real; its failures are answered but not recorded. */
  function LiveModel(c: Config, st: EvalState, inv: Invocation, o: Outcome): (EvalState, Reply) {
    if inv.capability !in c.env then (st, Gave(NotGranted(inv)))
    else
      var ranOnce := st.(ran := st.ran + [inv]);
      match o
      case Success(json) => (Noted(ranOnce, StepOf(inv, json, "")), Gave(Ok(json)))
      case Failure(msg) => (ranOnce, Gave(CallError(inv.capability, inv.operation, msg)))
      case Suspended(_, _) => (ranOnce, Gave(CallError(inv.capability, inv.operation, "suspended")))
  }

  const FIXED_CLOCK := "1735689600000000000"

  function PinnedModel(st: EvalState, inv: Invocation, pin: string): (EvalState, Reply) {
    if inv.capability == "rand" && st.stop.Some? then (st, Halt(st))
    else
      var json := if inv.capability == "time" && inv.operation == "now" then FIXED_CLOCK
                  else if inv.capability == "rand" then pin else "null";
      (Noted(st, StepOf(inv, json, "")), Gave(Ok(json)))
  }

  /** The user channel. Its steps are recorded without arguments. */
  function RecvModel(c: Config, st: EvalState, answer: Option<string>): (EvalState, Reply) {
    if st.stop.Some? then (st, Halt(st))
    else if c.simulated then
      match answer
      case None => var halted := Stopped(st, RecvExhausted, "simulator failed"); (halted, Halt(halted))
      case Some(msg) => (Noted(st, TrajectoryStep("inbox", "recv", "", msg, "")), Gave(Ok(msg)))
    else if st.recvPos >= |c.recvs| then
      var halted := Stopped(st, RecvExhausted,
        "run requested recv #" + CallKeys.Itoa(st.recvPos + 1) + " but golden recorded only " + CallKeys.Itoa(|c.recvs|));
      (halted, Halt(halted))
    else
      var msg := c.recvs[st.recvPos];
      (Noted(st.(recvPos := st.recvPos + 1), TrajectoryStep("inbox", "recv", "", msg, "")), Gave(Ok(msg)))
  }

  const BAD_ARGS := "bad http args"

  function MissDetail(c: Config, operation: string, url: string): string {
    (if c.missPolicy == MissFlag then "flagged for human: " else "") + operation + " " + url + " has no recorded response"
  }

  /** The tape; on a miss, reads go live and writes obey the miss policy. */
  function HttpModel(c: Config, st: EvalState, inv: Invocation, o: Outcome): (EvalState, Reply) {
    match c.matching.decode(inv.args)
    case None => (st, Gave(CallError("http", inv.operation, BAD_ARGS)))
    case Some(a) =>
      if st.stop.Some? then (st, Halt(st))
      else
        var key := c.matching.KeyOf(inv.operation, a.url, a.body);
        LookupInBounds(c.tape, st.served, key);
        var (place, cursor) := LookupModel(c.tape, st.served, key);
        var looked := st.(served := cursor);
        if place.Some? then
          var e := c.tape[place.value];
          if e.err != "" then (Noted(looked, StepOf(inv, "", e.err)), Gave(CallError("http", inv.operation, e.err)))
          else (Noted(looked, StepOf(inv, e.result, "")), Gave(Ok(e.result)))
        else if c.isWrite(inv.operation, inv.args) && c.missPolicy != MissGoLive then
          var halted := Stopped(looked, WriteMiss, MissDetail(c, inv.operation, a.url));
          (halted, Halt(halted))
        else LiveModel(c, looked, inv, o)
  }

  /** One whole call. */
  function EvalCall(c: Config, st: EvalState, inv: Invocation, w: World): (EvalState, Reply) {
    var charged := ChargeModel(c, st, w.late);
    if charged.stop.Some? then (charged, Halt(charged))
    else
      match ModeOf(c, inv.capability)
      case FromCassette => HttpModel(c, charged, inv, w.outcome)
      case Pinned => PinnedModel(charged, inv, w.pin)
      case Simulate =>
        if inv.capability == "inbox" && inv.operation == "recv" then RecvModel(c, charged, w.answer)
        else LiveModel(c, charged, inv, w.outcome)
      case Live => LiveModel(c, charged, inv, w.outcome)
  }

  // ---- The object

  class Mediator {
    const config: Config
    const cassette: Cassette
    var steps: nat
    var executed: nat
    var recvPos: nat
    var stop: Option<Stop>
    var traj: seq<TrajectoryStep>
    ghost var ran: seq<Invocation>

    constructor (config: Config, cassette: Cassette)
      requires cassette.Valid() && cassette.entries == config.tape && cassette.matching == config.matching
      ensures Valid() && this.config == config && this.cassette == cassette
      ensures Model() == START.(served := cassette.Served())
    {
      this.config, this.cassette := config, cassette;
      steps, executed, recvPos, stop, traj, ran := 0, 0, 0, None, [], [];
    }

    ghost predicate Valid()
      reads this, cassette
    {
      cassette.Valid() && cassette.entries == config.tape && cassette.matching == config.matching
    }

    ghost function Model(): EvalState
      reads this, cassette
    {
      EvalState(steps, executed, recvPos, stop, traj, cassette.Served(), ran)
    }

    method SetStop(kind: StopKind, detail: string) returns (s: Stop)
      modifies this`stop
      ensures Model() == Stopped(old(Model()), kind, detail) && stop == Some(s)
      ensures stop == if old(stop) == None then Some(Stop(kind, detail)) else old(stop)
    {
      if stop.None? { stop := Some(Stop(kind, detail)); }
      s := stop.value;
    }

    method Record(capability: string, operation: string, args: string, result: string, err: string)
      modifies this`executed, this`traj
      ensures Model() == Noted(old(Model()), TrajectoryStep(capability, operation, args, result, err))
    {
      executed := executed + 1;
      traj := traj + [TrajectoryStep(capability, operation, args, result, err)];
    }

    method Charge(late: bool) returns (s: Option<Stop>)
      modifies this`steps, this`stop
      ensures Model() == ChargeModel(config, old(Model()), late) && s == stop
    {
      if stop.Some? { return stop; }
      steps := steps + 1;
      if config.maxSteps > 0 && steps > config.maxSteps {
        var b := SetStop(OverBudget, "exceeded " + CallKeys.Itoa(config.maxSteps) + " steps");
        return Some(b);
      }
      if late {
        var b := SetStop(OverBudget, "exceeded wall-clock cap");
        return Some(b);
      }
      s := None;
    }

    method LiveCall(inv: Invocation, o: Outcome) returns (r: Reply)
      modifies this`executed, this`traj, this`ran
      ensures (Model(), r) == LiveModel(config, old(Model()), inv, o)
    {
      if inv.capability !in config.env { return Gave(NotGranted(inv)); }
      ran := ran + [inv];
      match o {
        case Failure(msg) => return Gave(CallError(inv.capability, inv.operation, msg));
        case Suspended(_, _) => return Gave(CallError(inv.capability, inv.operation, "suspended"));
        case Success(json) =>
          Record(inv.capability, inv.operation, inv.args, json, "");
          return Gave(Ok(json));
      }
    }

    method PinnedCall(inv: Invocation, pin: string) returns (r: Reply)
      modifies this`executed, this`traj
      ensures (Model(), r) == PinnedModel(old(Model()), inv, pin)
    {
      var json := "null";
      if inv.capability == "time" && inv.operation == "now" {
        json := FIXED_CLOCK;
      } else if inv.capability == "rand" {
        if stop.Some? { return Halted(stop.value); }
        json := pin;
      }
      Record(inv.capability, inv.operation, inv.args, json, "");
      r := Gave(Ok(json));
    }

    method Recv(answer: Option<string>) returns (r: Reply)
      modifies this`executed, this`traj, this`recvPos, this`stop
      ensures (Model(), r) == RecvModel(config, old(Model()), answer)
    {
      if stop.Some? { return Halted(stop.value); }
      if config.simulated {
        if answer.None? {
          var s := SetStop(RecvExhausted, "simulator failed");
          return Halted(s);
        }
        Record("inbox", "recv", "", answer.value, "");
        return Gave(Ok(answer.value));
      }
      if recvPos >= |config.recvs| {
        var s := SetStop(RecvExhausted,
          "run requested recv #" + CallKeys.Itoa(recvPos + 1) + " but golden recorded only " + CallKeys.Itoa(|config.recvs|));
        return Halted(s);
      }
      var msg := config.recvs[recvPos];
      recvPos := recvPos + 1;
      Record("inbox", "recv", "", msg, "");
      r := Gave(Ok(msg));
    }

    method Http(inv: Invocation, o: Outcome) returns (r: Reply)
      requires Valid()
      modifies this, cassette
      ensures Valid() && (Model(), r) == HttpModel(config, old(Model()), inv, o)
    {
      var a := config.matching.decode(inv.args);
      if a.None? { return Gave(CallError("http", inv.operation, BAD_ARGS)); }
      if stop.Some? { return Halted(stop.value); }
      var entry := cassette.Lookup(inv.operation, a.value.url, a.value.body);
      if entry.Some? {
        if entry.value.err != "" {
          Record(inv.capability, inv.operation, inv.args, "", entry.value.err);
          return Gave(CallError("http", inv.operation, entry.value.err));
        }
        Record(inv.capability, inv.operation, inv.args, entry.value.result, "");
        return Gave(Ok(entry.value.result));
      }
      if config.isWrite(inv.operation, inv.args) && config.missPolicy != MissGoLive {
        var s := SetStop(WriteMiss, MissDetail(config, inv.operation, a.value.url));
        return Halted(s);
      }
      r := LiveCall(inv, o);
    }

    method Call(inv: Invocation, w: World) returns (r: Reply)
      requires Valid()
      modifies this, cassette
      ensures Valid() && (Model(), r) == EvalCall(config, old(Model()), inv, w)
    {
      var s := Charge(w.late);
      if s.Some? { return Halted(s.value); }
      match ModeOf(config, inv.capability) {
        case FromCassette => r := Http(inv, w.outcome);
        case Pinned => r := PinnedCall(inv, w.pin);
        case Simulate =>
          if inv.capability == "inbox" && inv.operation == "recv" {
            r := Recv(w.answer);
          } else {
            r := LiveCall(inv, w.outcome);
          }
        case Live => r := LiveCall(inv, w.outcome);
      }
    }
  }

  // ---- Whole runs fail closed

  datatype EvalStep = EvalStep(inv: Invocation, w: World)

  function EvalAll(c: Config, calls: seq<EvalStep>): EvalState {
    if calls == [] then START else EvalCall(c, EvalAll(c, calls[..|calls| - 1]), calls[|calls| - 1].inv, calls[|calls| - 1].w).0
  }

  /** What call number `i` is answered. */
  function ReplyTo(c: Config, calls: seq<EvalStep>, i: nat): Reply
    requires i < |calls|
  {
    EvalCall(c, EvalAll(c, calls[..i]), calls[i].inv, calls[i].w).1
  }

  /** The executor of this call may run although a run of it has side effects nobody recorded. */
  predicate Unattended(c: Config, inv: Invocation) {
    ModeOf(c, inv.capability) == FromCassette ==>
      match c.matching.decode(inv.args)
      case None => false
      case Some(a) =>
        Places(c.tape, c.matching.KeyOf(inv.operation, a.url, a.body)) == []
        && (c.missPolicy == MissGoLive || !c.isWrite(inv.operation, inv.args))
  }

  ghost predicate Sound(c: Config, st: EvalState) {
    && st.executed == |st.traj|
    && |st.ran| <= st.steps
    && (c.maxSteps > 0 && st.stop.None? ==> st.steps <= c.maxSteps)
    && (c.maxSteps > 0 ==> |st.ran| <= c.maxSteps)
    && (forall i :: 0 <= i < |st.ran| ==> st.ran[i].capability in c.env && Unattended(c, st.ran[i]))
  }

  /** After a boundary a call changes nothing, runs nothing, and returns that boundary. */
  lemma StoppedCall(c: Config, st: EvalState, inv: Invocation, w: World)
    requires st.stop.Some?
    ensures EvalCall(c, st, inv, w) == (st, Halt(st))
  {
  }

  /** A call returns a boundary exactly when the run is stopped, and then the one that stopped it. */
  lemma HaltsIffStopped(c: Config, st: EvalState, inv: Invocation, w: World)
    ensures var (st', r) := EvalCall(c, st, inv, w); (r.Halted? <==> st'.stop.Some?) && (r.Halted? ==> st'.stop == Some(r.stop))
  {
  }

  lemma LiveKeepsSound(c: Config, st: EvalState, inv: Invocation, o: Outcome)
    requires Sound(c, st) && |st.ran| < st.steps && st.stop.None? && Unattended(c, inv)
    ensures Sound(c, LiveModel(c, st, inv, o).0)
  {
    var st' := LiveModel(c, st, inv, o).0;
    if inv.capability in c.env { assert st'.ran == st.ran + [inv]; }
  }

  lemma CallKeepsSound(c: Config, st: EvalState, inv: Invocation, w: World)
    requires Sound(c, st)
    ensures Sound(c, EvalCall(c, st, inv, w).0)
  {
    var charged := ChargeModel(c, st, w.late);
    if charged.stop.None? {
      match ModeOf(c, inv.capability)
      case FromCassette => HttpKeepsSound(c, charged, inv, w.outcome);
      case Pinned =>
      case Simulate => LiveKeepsSound(c, charged, inv, w.outcome);
      case Live => LiveKeepsSound(c, charged, inv, w.outcome);
    }
  }

  lemma HttpKeepsSound(c: Config, st: EvalState, inv: Invocation, o: Outcome)
    requires Sound(c, st) && |st.ran| < st.steps && st.stop.None? && ModeOf(c, inv.capability) == FromCassette
    ensures Sound(c, HttpModel(c, st, inv, o).0)
  {
    if c.matching.decode(inv.args).Some? {
      var a := c.matching.decode(inv.args).value;
      var key := c.matching.KeyOf(inv.operation, a.url, a.body);
      var looked := st.(served := LookupModel(c.tape, st.served, key).1);
      if LookupModel(c.tape, st.served, key).0.None? && (c.missPolicy == MissGoLive || !c.isWrite(inv.operation, inv.args)) {
        LiveKeepsSound(c, looked, inv, o);
      }
    }
  }

  /** In every run: executed calls are exactly the recorded steps; a step cap bounds the executor
      runs; and unless the policy is to go live, the executor of a taped capability runs only for
      requests that were never recorded and are classified as reads. */
  lemma {:induction false} RunsAreSound(c: Config, calls: seq<EvalStep>)
    ensures Sound(c, EvalAll(c, calls))
  {
    if calls != [] {
      var n := |calls| - 1;
      RunsAreSound(c, calls[..n]);
      CallKeepsSound(c, EvalAll(c, calls[..n]), calls[n].inv, calls[n].w);
    }
  }

  /** A stopped run stays as it is. */
  lemma {:induction false} StaysStopped(c: Config, calls: seq<EvalStep>, i: nat)
    requires i <= |calls| && EvalAll(c, calls[..i]).stop.Some?
    ensures EvalAll(c, calls) == EvalAll(c, calls[..i])
    decreases |calls|
  {
    if i == |calls| {
      assert calls[..i] == calls;
    } else {
      var n := |calls| - 1;
      assert calls[..n][..i] == calls[..i];
      StaysStopped(c, calls[..n], i);
      StoppedCall(c, EvalAll(c, calls[..n]), calls[n].inv, calls[n].w);
    }
  }

  /** Once a call has stopped the run, every later call returns the same boundary, nothing is
      recorded and no executor runs. */
  lemma FailsClosed(c: Config, calls: seq<EvalStep>, i: nat)
    requires i <= |calls| && EvalAll(c, calls[..i]).stop.Some?
    ensures EvalAll(c, calls) == EvalAll(c, calls[..i])
    ensures forall j :: i <= j < |calls| ==> ReplyTo(c, calls, j) == Halt(EvalAll(c, calls[..i]))
  {
    StaysStopped(c, calls, i);
    forall j | i <= j < |calls| ensures ReplyTo(c, calls, j) == Halt(EvalAll(c, calls[..i])) {
      assert calls[..j][..i] == calls[..i];
      StaysStopped(c, calls[..j], i);
      StoppedCall(c, EvalAll(c, calls[..j]), calls[j].inv, calls[j].w);
    }
  }
}
