/** Values shared by the replay engine, the stores and the evaluator. */
module Types {

  datatype Option<+T> = None | Some(value: T)

  /** One call a script makes into a capability. `args` is the raw JSON text. */
  datatype Invocation = Invocation(
    capability: string, operation: string, args: string, idempotent: bool, mutatesFS: bool)

  /** What an executor gives back when it really runs. */
  datatype Outcome =
    | Success(json: string)
    | Failure(msg: string)
    | Suspended(workspace: string, wakeAt: int)

  /** What the script sees as the answer to a call. */
  datatype Response =
    | Ok(json: string)
    | CallError(capability: string, operation: string, msg: string)

  datatype RPCRecord = RPCRecord(
    callKey: string, capability: string, operation: string, argsHash: string,
    args: string, idemKey: string, result: string, err: string)

  /** One entry of an execution's append-only log. */
  datatype Event =
    | Intent(seqNo: nat, rpc: RPCRecord)
    | Result(seqNo: nat, rpc: RPCRecord)
    | Barrier(seqNo: nat, snapshot: string, at: nat)

  function Renumber(ev: Event, n: nat): Event {
    ev.(seqNo := n)
  }

  const NOT_GRANTED := "capability not granted"

  function NotGranted(inv: Invocation): Response {
    CallError(inv.capability, inv.operation, NOT_GRANTED)
  }

  /** SHA-256 is taken to be injective, so the hash is represented by its preimage. */
  function HashArgs(inv: Invocation): string {
    inv.capability + [0 as char] + inv.operation + [0 as char] + inv.args
  }

  function IdemKey(exec: string, callKey: string): string {
    exec + ":" + callKey
  }

  function CallRecord(exec: string, key: string, inv: Invocation): RPCRecord {
    RPCRecord(key, inv.capability, inv.operation, HashArgs(inv), inv.args, IdemKey(exec, key), "", "")
  }

  function ResultRecord(exec: string, key: string, inv: Invocation, o: Outcome): RPCRecord
    requires !o.Suspended?
  {
    if o.Failure? then CallRecord(exec, key, inv).(err := o.msg) else CallRecord(exec, key, inv).(result := o.json)
  }

  /** The replay check: recorded capability, method and argument hash against the call's. */
  predicate SameCall(rec: RPCRecord, inv: Invocation) {
    rec.capability == inv.capability && rec.operation == inv.operation && rec.argsHash == HashArgs(inv)
  }

  /** The answer given from a recorded result. */
  function Replayed(inv: Invocation, rec: RPCRecord): Response {
    if rec.err != "" then CallError(inv.capability, inv.operation, rec.err) else Ok(rec.result)
  }

  /** The answer given by the attempt that executed the call. */
  function Live(inv: Invocation, o: Outcome): Response
    requires !o.Suspended?
  {
    if o.Failure? then CallError(inv.capability, inv.operation, o.msg) else Ok(o.json)
  }

  /** The check compares what it should: a record it accepts was made for the same arguments. */
  lemma HashDeterminesArgs(a: Invocation, b: Invocation)
    requires a.capability == b.capability && a.operation == b.operation
    requires HashArgs(a) == HashArgs(b)
    ensures a.args == b.args
  {
    var n := |a.capability| + |a.operation| + 2;
    assert HashArgs(a)[n..] == a.args;
    assert HashArgs(b)[n..] == b.args;
  }

  /** The script now makes another call than it made then. */
  ghost predicate Changed(made: Invocation, inv: Invocation) {
    made.capability != inv.capability || made.operation != inv.operation || made.args != inv.args
  }

  /** The replay check on the record of the call `made` passes for that call, and for no other. */
  lemma CheckPassesIff(exec: string, key: string, made: Invocation, o: Outcome, inv: Invocation)
    requires !o.Suspended?
    ensures SameCall(ResultRecord(exec, key, made, o), inv) <==> !Changed(made, inv)
  {
    if made.capability == inv.capability && made.operation == inv.operation && HashArgs(made) == HashArgs(inv) {
      HashDeterminesArgs(made, inv);
    }
  }

  /** Replay answers like the first execution, except for a failure whose message is empty:
      its record has no error text, so replay answers with an empty success. */
  lemma ReplayAnswersAlike(exec: string, key: string, inv: Invocation, o: Outcome)
    requires !o.Suspended?
    ensures Replayed(inv, ResultRecord(exec, key, inv, o)) == Live(inv, o) <==> o != Failure("")
    ensures SameCall(ResultRecord(exec, key, inv, o), inv)
  {
    if o == Failure("") {
      assert Replayed(inv, ResultRecord(exec, key, inv, o)) == Ok("");
    }
  }
}
