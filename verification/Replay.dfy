/** The replay engine as a step system: any number of overlapping attempts of one execution,
    each crashing, parking or finishing at any point, over one log and one lease. */
module Replay {
  import opened Types
  import opened CallKeys
  import opened Logs
  import opened Scripts
  import opened Nodes

  /** What is fixed for an execution's whole life. */
  datatype System = System(id: string, prog: Prog, granted: set<string>, sandbox: bool)

  datatype Phase = Waiting | Running | Parked | Over

  /** One attempt: its lease token, its view of the log (`base` when it read it), its script. */
  datatype Attempt = Attempt(
    token: nat, phase: Phase, view: View, base: map<string, RPCRecord>, node: Node, dirty: bool)

  datatype Lease = Lease(minted: nat, current: Option<nat>)

  /** A real run of an executor; `intentAt` is the write-ahead intent that announced it. */
  datatype Execution = Execution(key: string, inv: Invocation, idemKey: string, intentAt: Option<nat>, outcome: Outcome)

  datatype State = State(
    log: seq<Event>, lease: Lease, attempts: map<nat, Attempt>,
    execs: seq<Execution>, outputs: seq<Finish>, drift: bool)

  const INITIAL := State([], Lease(0, None), map[], [], [], false)

  datatype Label =
    | Acquire(r: nat, token: nat)
    | Read(r: nat)
    | Advance(r: nat, a: Path)                     // memo hit or miss, ungranted call, fork, join
    | Announce(r: nat, a: Path)                    // write-ahead intent
    | Execute(r: nat, a: Path, outcome: Outcome)
    | Record(r: nat, a: Path, due: bool)           // append the result; `due`: snapshot debounce elapsed
    | Snapshot(r: nat, a: Path, key: string)       // barrier inside a call
    | Park(r: nat, outcome: Outcome)               // the executor asked to suspend
    | Flush(r: nat, key: string)                   // final barrier of a parked attempt
    | Finish(r: nat)
    | Release(r: nat)                              // ended, parked or failed to set up
    | Crash(r: nat)
    | Restart                                      // the process died: leases start over

  ghost predicate Ended(n: Node) {
    n.At? && n.prog.Ret?
  }

  ghost predicate Executable(n: Node) {
    n.Flight? && ((n.stage.Missed? && n.inv.idempotent) || n.stage.Announced?)
  }

  ghost predicate Active(s: State, r: nat) {
    r in s.attempts && s.attempts[r].phase.Running?
  }

  /** Lease renewal, taken together with the append it guards. */
  ghost predicate Holds(s: State, r: nat) {
    r in s.attempts && s.lease.current == Some(s.attempts[r].token)
  }

  /** The node of a running attempt at `a`. */
  ghost function Leaf(s: State, r: nat, a: Path): Option<Node> {
    if Active(s, r) then NodeAt(s.attempts[r].node, a) else None
  }

  ghost predicate Enabled(sys: System, s: State, l: Label) {
    match l
    case Acquire(r, token) => r !in s.attempts && token > s.lease.minted
    case Read(r) => r in s.attempts && s.attempts[r].phase.Waiting?
    case Advance(r, a) => Leaf(s, r, a).Some? && CanAdvance(Leaf(s, r, a).value)
    case Announce(r, a) => Holds(s, r) && Leaf(s, r, a).Some? && Unannounced(Leaf(s, r, a).value)
    case Execute(r, a, o) => Leaf(s, r, a).Some? && Executable(Leaf(s, r, a).value) && !o.Suspended? && o != Failure("")
    case Record(r, a, _) => Holds(s, r) && Leaf(s, r, a).Some? && HasReturned(Leaf(s, r, a).value)
    case Snapshot(r, a, _) => Holds(s, r) && Leaf(s, r, a).Some? && AwaitsBarrier(Leaf(s, r, a).value)
    case Park(r, o) => Leaf(s, r, []).Some? && Executable(Leaf(s, r, []).value) && o.Suspended?
    case Flush(r, _) => Holds(s, r) && s.attempts[r].phase.Parked? && s.attempts[r].dirty
    case Finish(r) => Leaf(s, r, []).Some? && Ended(Leaf(s, r, []).value)
    case Release(r) => r in s.attempts && (s.attempts[r].phase.Waiting? || s.attempts[r].phase.Over? || (s.attempts[r].phase.Parked? && !s.attempts[r].dirty))
    case Crash(r) => r in s.attempts
    case Restart => s.attempts.Keys == {}
  }

  ghost predicate Unannounced(n: Node) {
    n.Flight? && n.stage.Missed? && !n.inv.idempotent
  }

  ghost predicate HasReturned(n: Node) {
    n.Flight? && n.stage.Returned? && !n.stage.outcome.Suspended?
  }

  ghost predicate AwaitsBarrier(n: Node) {
    n.Flight? && n.stage.Committed?
  }

  ghost predicate CanAdvance(n: Node) {
    (n.At? && !n.prog.Ret?) || (n.Fan? && forall i :: 0 <= i < |n.kids| ==> Ended(n.kids[i]))
  }

  /** One step of a node that needs no log, lease or executor. */
  ghost function Advanced(sys: System, n: Node, key: string, memo: map<string, RPCRecord>): Node
    requires CanAdvance(n)
  {
    if n.Fan? then
      At(After(n.joined, Join(seq(|n.kids|, i requires 0 <= i < |n.kids| => n.kids[i].prog.finish))), n.idx + 1)
    else if n.prog.Par? then
      Fan(seq(|n.prog.branches|, i requires 0 <= i < |n.prog.branches| => At(n.prog.branches[i], 0)), n.prog.joined, n.ctr)
    else if key in memo then At(After(n.prog.rest, Replayed(n.prog.inv, memo[key])), n.ctr + 1)
    else if n.prog.inv.capability !in sys.granted then At(After(n.prog.rest, NotGranted(n.prog.inv)), n.ctr + 1)
    else Flight(n.prog.inv, n.prog.rest, n.ctr, Missed)
  }

  ghost predicate Drifts(n: Node, key: string, memo: map<string, RPCRecord>) {
    n.At? && n.prog.Call? && key in memo && !SameCall(memo[key], n.prog.inv)
  }

  ghost function KeyAt(n: Node, a: Path): string {
    Dotted(a + [if n.At? then n.ctr else n.idx])
  }

  /** Replace an attempt's node at `a`. */
  ghost function Move(s: State, r: nat, a: Path, x: Node): State
    requires r in s.attempts
  {
    s.(attempts := s.attempts[r := s.attempts[r].(node := Put(s.attempts[r].node, a, x))])
  }

  /** Writing an event through an attempt's cursor. */
  ghost function Through(s: State, r: nat, ev: Event): Written
    requires r in s.attempts
  {
    WriteThrough(s.log, s.lease.current, s.attempts[r].token, s.attempts[r].view, ev)
  }

  /** The state after a write, with the writer's node and dirty flag. */
  ghost function Commit(s: State, r: nat, w: Written, node: Node, dirty: bool): State
    requires r in s.attempts
  {
    s.(log := w.log, attempts := s.attempts[r := s.attempts[r].(view := w.view, node := node, dirty := dirty)])
  }

  /** What an answered call turns into, and whether it left the home directory dirty. */
  ghost function AnsweredNode(sys: System, n: Node, due: bool): Node
    requires HasReturned(n)
  {
    if Mutated(sys, n) && due then n.(stage := Committed(Live(n.inv, n.stage.outcome)))
    else At(After(n.rest, Live(n.inv, n.stage.outcome)), n.idx + 1)
  }

  ghost predicate Mutated(sys: System, n: Node)
    requires HasReturned(n)
  {
    n.inv.mutatesFS && n.stage.outcome.Success? && sys.sandbox
  }

  /** What a call turns into once its barrier is written. */
  ghost function ResumedNode(n: Node): Node
    requires AwaitsBarrier(n)
  {
    At(After(n.rest, n.stage.resp), n.idx + 1)
  }

  ghost function SetPhase(s: State, r: nat, p: Phase): State
    requires r in s.attempts
  {
    s.(attempts := s.attempts[r := s.attempts[r].(phase := p)])
  }

  ghost function ExecutionOf(sys: System, n: Node, key: string, o: Outcome): Execution
    requires n.Flight?
  {
    Execution(key, n.inv, IdemKey(sys.id, key), if n.stage.Announced? then Some(n.stage.intentAt) else None, o)
  }

  ghost function Next(sys: System, s: State, l: Label): State
    requires Enabled(sys, s, l)
  {
    match l
    case Acquire(r, token) =>
      s.(lease := Lease(token, Some(token)),
         attempts := s.attempts[r := Attempt(token, Waiting, EMPTY_VIEW, map[], At(sys.prog, 0), false)])
    case Read(r) =>
      var v := Sync(EMPTY_VIEW, s.log);
      s.(attempts := s.attempts[r := s.attempts[r].(phase := Running, view := v, base := v.memo)])
    case Advance(r, a) =>
      var n, memo := NodeAt(s.attempts[r].node, a).value, s.attempts[r].view.memo;
      if Drifts(n, KeyAt(n, a), memo) then SetPhase(s, r, Over).(drift := true)
      else Move(s, r, a, Advanced(sys, n, KeyAt(n, a), memo))
    case Announce(r, a) =>
      var at, n := s.attempts[r], Leaf(s, r, a).value;
      Commit(s, r, Through(s, r, Intent(0, CallRecord(sys.id, KeyAt(n, a), n.inv))),
             Put(at.node, a, n.(stage := Announced(|s.log|))), at.dirty)
    case Execute(r, a, o) =>
      var n := NodeAt(s.attempts[r].node, a).value;
      Move(s, r, a, n.(stage := Returned(o))).(execs := s.execs + [ExecutionOf(sys, n, KeyAt(n, a), o)])
    case Record(r, a, due) =>
      var at, n := s.attempts[r], Leaf(s, r, a).value;
      Commit(s, r, Through(s, r, Result(0, ResultRecord(sys.id, KeyAt(n, a), n.inv, n.stage.outcome))),
             Put(at.node, a, AnsweredNode(sys, n, due)), at.dirty || Mutated(sys, n))
    case Snapshot(r, a, key) =>
      var at, n := s.attempts[r], Leaf(s, r, a).value;
      Commit(s, r, Through(s, r, Barrier(0, key, at.view.cursor)), Put(at.node, a, ResumedNode(n)), false)
    case Park(r, o) =>
      var n := s.attempts[r].node;
      SetPhase(s, r, Parked).(execs := s.execs + [ExecutionOf(sys, n, KeyAt(n, []), o)])
    case Flush(r, key) =>
      Commit(s, r, Through(s, r, Barrier(0, key, s.attempts[r].view.cursor)), s.attempts[r].node, false)
    case Finish(r) =>
      SetPhase(s, r, Over).(outputs := s.outputs + [s.attempts[r].node.prog.finish])
    case Release(r) =>
      s.(attempts := s.attempts - {r}, lease := if Holds(s, r) then s.lease.(current := None) else s.lease)
    case Crash(r) => s.(attempts := s.attempts - {r})
    case Restart => s.(lease := Lease(0, None))
  }

  ghost predicate Legal(sys: System, ls: seq<Label>)
    decreases |ls|, 0
  {
    ls == [] || (Legal(sys, ls[..|ls| - 1]) && Enabled(sys, Play(sys, ls[..|ls| - 1]), ls[|ls| - 1]))
  }

  /** The state after a whole history of steps. */
  ghost function Play(sys: System, ls: seq<Label>): State
    requires Legal(sys, ls)
    decreases |ls|, 1
  {
    if ls == [] then INITIAL else Next(sys, Play(sys, ls[..|ls| - 1]), ls[|ls| - 1])
  }
}
