/** The invariant of the replay step system and its preservation by every step. */
module ReplayInv {
  import opened Types
  import opened CallKeys
  import opened Logs
  import opened Scripts
  import opened Nodes
  import opened Replay

  ghost function CtxOf(sys: System, memo: map<string, RPCRecord>): Ctx {
    Ctx(sys.granted, memo)
  }

  /** The call the script makes under `key`, given the recorded results. */
  ghost function DueInv(sys: System, memo: map<string, RPCRecord>, key: string): Option<Invocation> {
    if exists p: Path :: Dotted(p) == key then InvAt(sys.prog, [], 0, CtxOf(sys, memo), PathOf(key)) else None
  }

  lemma DueAt(sys: System, memo: map<string, RPCRecord>, q: Path)
    ensures DueInv(sys, memo, Dotted(q)) == InvAt(sys.prog, [], 0, CtxOf(sys, memo), q)
  {
    PathOfDotted(q);
  }

  ghost predicate Matches(sys: System, rec: RPCRecord, inv: Invocation) {
    && SameCall(rec, inv)
    && rec.args == inv.args
    && rec.idemKey == IdemKey(sys.id, rec.callKey)
    && inv.capability in sys.granted
  }

  /** A record was made for the call the script makes at its key. */
  ghost predicate RecordOk(sys: System, memo: map<string, RPCRecord>, rec: RPCRecord) {
    DueInv(sys, memo, rec.callKey).Some? && Matches(sys, rec, DueInv(sys, memo, rec.callKey).value)
  }

  ghost predicate Announces(a: RPCRecord, b: RPCRecord) {
    a.callKey == b.callKey && a.capability == b.capability && a.operation == b.operation
    && a.argsHash == b.argsHash && a.idemKey == b.idemKey
  }

  /** Every result of a non-idempotent call has its intent earlier in the log. */
  ghost predicate WriteAhead(sys: System, log: seq<Event>, memo: map<string, RPCRecord>) {
    forall j :: 0 <= j < |log| && log[j].Result? && DueInv(sys, memo, log[j].rpc.callKey).Some?
                && !DueInv(sys, memo, log[j].rpc.callKey).value.idempotent ==>
      exists i :: 0 <= i < j && log[i].Intent? && Announces(log[i].rpc, log[j].rpc)
  }

  ghost predicate LogOk(sys: System, log: seq<Event>) {
    && Dense(log)
    && UniqueResults(log)
    && (forall i :: 0 <= i < |log| && !log[i].Barrier? ==> RecordOk(sys, MemoOf(log), log[i].rpc))
    && WriteAhead(sys, log, MemoOf(log))
  }

  ghost predicate AnnouncedIn(sys: System, log: seq<Event>, key: string, inv: Invocation) {
    exists i :: 0 <= i < |log| && log[i].Intent? && log[i].rpc == CallRecord(sys.id, key, inv)
  }

  ghost predicate FlightOk(sys: System, log: seq<Event>, memo: map<string, RPCRecord>, q: Path, n: Node)
    requires n.Flight?
  {
    && n.inv.capability in sys.granted
    && (!n.stage.Committed? ==> Dotted(q) !in memo)
    && (n.stage.Announced? ==>
          n.stage.intentAt < |log| && log[n.stage.intentAt].Intent?
          && log[n.stage.intentAt].rpc == CallRecord(sys.id, Dotted(q), n.inv))
    && (n.stage.Announced? || n.stage.Returned? ==> n.inv.idempotent || AnnouncedIn(sys, log, Dotted(q), n.inv))
    && (n.stage.Announced? ==> !n.inv.idempotent)
    && (n.stage.Returned? ==> !n.stage.outcome.Suspended? && n.stage.outcome != Failure(""))
  }

  ghost predicate FlightsOk(sys: System, log: seq<Event>, memo: map<string, RPCRecord>, n: Node) {
    forall q :: FlightAt(n, q).Some? ==> FlightOk(sys, log, memo, q, FlightAt(n, q).value)
  }

  /** However the missing answers turn out, the attempt's script state continues the script. */
  ghost predicate Tracks(sys: System, memo: map<string, RPCRecord>, n: Node) {
    forall c: Ctx :: c.granted == sys.granted && Sub(memo, c.memo) ==> Continues(n, At(sys.prog, 0), [], c)
  }

  ghost predicate NoFlights(n: Node) {
    forall q :: FlightAt(n, q).None?
  }

  /** An attempt that read a complete log never leaves it. */
  ghost predicate Quiet(sys: System, at: Attempt) {
    RefRun(sys.prog, [], 0, CtxOf(sys, at.base)).Some? ==> at.view.memo == at.base && !at.dirty && NoFlights(at.node)
  }

  ghost predicate AttemptOk(sys: System, log: seq<Event>, at: Attempt) {
    if at.phase.Waiting? then at.node == At(sys.prog, 0) && !at.dirty else
      && Sub(at.view.memo, MemoOf(log))
      && Sub(at.base, at.view.memo)
      && at.view.cursor <= |log|
      && Tracks(sys, at.view.memo, at.node)
      && FlightsOk(sys, log, at.view.memo, at.node)
      && Quiet(sys, at)
  }

  ghost predicate TokensOk(s: State) {
    && (forall r :: r in s.attempts ==> s.attempts[r].token <= s.lease.minted)
    && (forall r, t :: r in s.attempts && t in s.attempts && r != t ==> s.attempts[r].token != s.attempts[t].token)
    && (s.lease.current.Some? ==> s.lease.current.value <= s.lease.minted)
  }

  /** The holder of the current lease, once it has read the log, is up to date. */
  ghost predicate HolderOk(s: State) {
    forall r :: Holds(s, r) && !s.attempts[r].phase.Waiting? ==>
      s.attempts[r].view == View(|s.log|, MemoOf(s.log))
  }

  /** The position of the intent that attempt `r` has announced under `q` and not used yet. */
  ghost function Pending(s: State, r: nat, q: Path): Option<nat> {
    if Active(s, r) && FlightAt(s.attempts[r].node, q).Some? && FlightAt(s.attempts[r].node, q).value.stage.Announced?
    then Some(FlightAt(s.attempts[r].node, q).value.stage.intentAt) else None
  }

  ghost predicate ExecOk(sys: System, log: seq<Event>, e: Execution) {
    && e.idemKey == IdemKey(sys.id, e.key)
    && (e.intentAt.None? <==> e.inv.idempotent)
    && (e.intentAt.Some? ==> e.intentAt.value < |log| && log[e.intentAt.value].Intent?
                             && log[e.intentAt.value].rpc == CallRecord(sys.id, e.key, e.inv))
  }

  /** Every execution of a non-idempotent call used up an intent of its own. */
  ghost predicate IntentsOk(sys: System, s: State) {
    && (forall j :: 0 <= j < |s.execs| ==> ExecOk(sys, s.log, s.execs[j]))
    && (forall i, j :: 0 <= i < j < |s.execs| && s.execs[i].intentAt.Some? ==> s.execs[i].intentAt != s.execs[j].intentAt)
    && (forall j, r, q :: 0 <= j < |s.execs| && Pending(s, r, q).Some? ==> s.execs[j].intentAt != Pending(s, r, q))
    && (forall r, q, t, u :: Pending(s, r, q).Some? && r != t ==> Pending(s, r, q) != Pending(s, t, u))
  }

  ghost predicate OutputsOk(sys: System, s: State) {
    forall i :: 0 <= i < |s.outputs| ==> RefRun(sys.prog, [], 0, CtxOf(sys, MemoOf(s.log))) == Some(s.outputs[i])
  }

  ghost predicate Inv(sys: System, s: State) {
    && TokensOk(s)
    && LogOk(sys, s.log)
    && (forall r :: r in s.attempts ==> AttemptOk(sys, s.log, s.attempts[r]))
    && HolderOk(s)
    && IntentsOk(sys, s)
    && OutputsOk(sys, s)
    && !s.drift
  }

  // ---- The log grows

  ghost predicate Fresh(log: seq<Event>, ev: Event) {
    ev.Result? ==> ev.rpc.callKey !in MemoOf(log)
  }

  lemma MemoGrows(log: seq<Event>, ev: Event)
    requires Fresh(log, ev)
    ensures Sub(MemoOf(log), MemoOf(log + [ev]))
  {
    MemoSnoc(log, ev);
  }

  lemma DueStays(sys: System, m: map<string, RPCRecord>, n: map<string, RPCRecord>, key: string)
    requires Sub(m, n) && DueInv(sys, m, key).Some?
    ensures DueInv(sys, n, key) == DueInv(sys, m, key)
  {
    InvMonotone(sys.prog, [], 0, CtxOf(sys, m), CtxOf(sys, n), PathOf(key));
  }

  lemma LogGrows(sys: System, log: seq<Event>, ev: Event)
    requires LogOk(sys, log) && ev.seqNo == |log| && Fresh(log, ev)
    requires !ev.Barrier? ==> RecordOk(sys, MemoOf(log), ev.rpc)
    requires ev.Result? && !DueInv(sys, MemoOf(log), ev.rpc.callKey).value.idempotent ==>
               exists i :: 0 <= i < |log| && log[i].Intent? && Announces(log[i].rpc, ev.rpc)
    ensures LogOk(sys, log + [ev])
  {
    var log', m, m' := log + [ev], MemoOf(log), MemoOf(log + [ev]);
    MemoGrows(log, ev);
    forall i | 0 <= i < |log'| && !log'[i].Barrier?
      ensures RecordOk(sys, m', log'[i].rpc) && DueInv(sys, m', log'[i].rpc.callKey) == DueInv(sys, m, log'[i].rpc.callKey)
    {
      assert RecordOk(sys, m, log'[i].rpc);
      DueStays(sys, m, m', log'[i].rpc.callKey);
    }
    forall i, j | 0 <= i < j < |log'| && log'[i].Result? && log'[j].Result?
      ensures log'[i].rpc.callKey != log'[j].rpc.callKey
    {
      if j == |log| { RecordedIsMemo(log, i); }
    }
    forall j | 0 <= j < |log'| && log'[j].Result? && DueInv(sys, m', log'[j].rpc.callKey).Some?
               && !DueInv(sys, m', log'[j].rpc.callKey).value.idempotent
      ensures exists i :: 0 <= i < j && log'[i].Intent? && Announces(log'[i].rpc, log'[j].rpc)
    {
      assert RecordOk(sys, m, log'[j].rpc);
      var i :| 0 <= i < j && i < |log| && log[i].Intent? && Announces(log[i].rpc, log'[j].rpc);
      assert log'[i] == log[i];
    }
  }

  lemma FlightStays(sys: System, log: seq<Event>, memo: map<string, RPCRecord>, q: Path, n: Node, ev: Event, memo': map<string, RPCRecord>)
    requires n.Flight? && FlightOk(sys, log, memo, q, n)
    requires !n.stage.Committed? ==> Dotted(q) !in memo'
    ensures FlightOk(sys, log + [ev], memo', q, n)
  {
    if (n.stage.Announced? || n.stage.Returned?) && !n.inv.idempotent {
      var i :| 0 <= i < |log| && log[i].Intent? && log[i].rpc == CallRecord(sys.id, Dotted(q), n.inv);
      assert (log + [ev])[i] == log[i];
    }
  }

  /** Attempts that do not write are undisturbed by a longer log. */
  lemma BystanderOk(sys: System, log: seq<Event>, at: Attempt, ev: Event)
    requires AttemptOk(sys, log, at) && Fresh(log, ev)
    ensures AttemptOk(sys, log + [ev], at)
  {
    if !at.phase.Waiting? {
      MemoGrows(log, ev);
      forall q | FlightAt(at.node, q).Some?
        ensures FlightOk(sys, log + [ev], at.view.memo, q, FlightAt(at.node, q).value)
      {
        FlightStays(sys, log, at.view.memo, q, FlightAt(at.node, q).value, ev, at.view.memo);
      }
    }
  }

  // ---- An attempt's script moves

  /** `x` may take the place of the node at `a`. */
  ghost predicate MoveOk(sys: System, log: seq<Event>, memo: map<string, RPCRecord>, a: Path, was: Node, x: Node) {
    && (forall c: Ctx :: c.granted == sys.granted && Sub(memo, c.memo) ==> Continues(x, was, a, c))
    && (forall q :: FlightAt(x, q).Some? ==> FlightOk(sys, log, memo, a + q, FlightAt(x, q).value))
  }

  lemma MoveTracks(sys: System, memo: map<string, RPCRecord>, memo': map<string, RPCRecord>, n: Node, a: Path, x: Node)
    requires Tracks(sys, memo, n) && Sub(memo, memo') && NodeAt(n, a).Some?
    requires forall c: Ctx :: c.granted == sys.granted && Sub(memo', c.memo) ==> Continues(x, NodeAt(n, a).value, a, c)
    ensures Tracks(sys, memo', Put(n, a, x))
  {
    forall c: Ctx | c.granted == sys.granted && Sub(memo', c.memo)
      ensures Continues(Put(n, a, x), At(sys.prog, 0), [], c)
    {
      assert [] + a == a;
      PutContinues(n, a, x, [], c);
      assert Sub(memo, c.memo);
      assert Continues(n, At(sys.prog, 0), [], c);
    }
  }

  lemma MoveFlights(sys: System, log: seq<Event>, memo: map<string, RPCRecord>, n: Node, a: Path, x: Node)
    requires NodeAt(n, a).Some?
    requires forall q :: FlightAt(n, q).Some? && !Prefix(a, q) ==> FlightOk(sys, log, memo, q, FlightAt(n, q).value)
    requires forall q :: FlightAt(x, q).Some? ==> FlightOk(sys, log, memo, a + q, FlightAt(x, q).value)
    ensures FlightsOk(sys, log, memo, Put(n, a, x))
  {
    forall q | FlightAt(Put(n, a, x), q).Some?
      ensures FlightOk(sys, log, memo, q, FlightAt(Put(n, a, x), q).value)
    {
      FlightInPut(n, a, x, q);
      if Prefix(a, q) { assert a + q[|a|..] == q; }
    }
  }

  lemma FreshKidsHaveNoFlights(n: Node)
    requires n.At? || (n.Fan? && forall i :: 0 <= i < |n.kids| ==> n.kids[i].At?)
    ensures NoFlights(n)
  {
  }

  /** A node that moves on without log, lease or executor has at most a call just missed. */
  lemma AdvancedShape(sys: System, n: Node, key: string, memo: map<string, RPCRecord>)
    requires CanAdvance(n)
    ensures var x := Advanced(sys, n, key, memo); if x.Flight? then x.stage.Missed? else NoFlights(x)
  {
    var x := Advanced(sys, n, key, memo);
    if !x.Flight? { FreshKidsHaveNoFlights(x); }
  }

  lemma AdvanceContinues(sys: System, memo: map<string, RPCRecord>, a: Path, n: Node, c: Ctx)
    requires CanAdvance(n) && c.granted == sys.granted && Sub(memo, c.memo)
    requires n.At? && n.prog.Call? && KeyAt(n, a) in memo ==> n.prog.inv.capability in sys.granted
    ensures Continues(Advanced(sys, n, KeyAt(n, a), memo), n, a, c)
  {
    var x := Advanced(sys, n, KeyAt(n, a), memo);
    if n.Fan? {
      var fs := seq(|n.kids|, i requires 0 <= i < |n.kids| => n.kids[i].prog.finish);
      assert AllSome(Kids(n, a, c)) && Values(Kids(n, a, c)) == fs;
    } else if n.prog.Par? {
      assert Kids(x, a, c) == Branches(n.prog, a, n.ctr, c);
      forall q | InvNode(x, a, c, q).Some? ensures InvNode(x, a, c, q) == InvNode(n, a, c, q) {}
    } else {
      if KeyAt(n, a) in memo { RestIsAfter(n.prog, Replayed(n.prog.inv, memo[KeyAt(n, a)]), a, n.ctr, c); }
      RestIsAfter(n.prog, NotGranted(n.prog.inv), a, n.ctr, c);
      forall q | InvNode(x, a, c, q).Some? ensures InvNode(x, a, c, q) == InvNode(n, a, c, q) {}
    }
  }

  lemma AdvanceOk(sys: System, log: seq<Event>, memo: map<string, RPCRecord>, a: Path, n: Node)
    requires CanAdvance(n)
    requires n.At? && n.prog.Call? && KeyAt(n, a) in memo ==> n.prog.inv.capability in sys.granted
    ensures MoveOk(sys, log, memo, a, n, Advanced(sys, n, KeyAt(n, a), memo))
  {
    var x := Advanced(sys, n, KeyAt(n, a), memo);
    forall c: Ctx | c.granted == sys.granted && Sub(memo, c.memo) ensures Continues(x, n, a, c) {
      AdvanceContinues(sys, memo, a, n, c);
    }
    if x.Flight? {
    } else {
      FreshKidsHaveNoFlights(x);
    }
  }

  lemma RecordContinues(sys: System, memo: map<string, RPCRecord>, a: Path, n: Node, x: Node, c: Ctx)
    requires HasReturned(n) && n.stage.outcome != Failure("") && n.inv.capability in sys.granted
    requires c.granted == sys.granted
    requires KeyAt(n, a) in c.memo && c.memo[KeyAt(n, a)] == ResultRecord(sys.id, KeyAt(n, a), n.inv, n.stage.outcome)
    requires x == n.(stage := Committed(Live(n.inv, n.stage.outcome))) || x == At(After(n.rest, Live(n.inv, n.stage.outcome)), n.idx + 1)
    ensures Continues(x, n, a, c)
  {
    ReplayAnswersAlike(sys.id, KeyAt(n, a), n.inv, n.stage.outcome);
    RestIsAfter(Call(n.inv, n.rest), Live(n.inv, n.stage.outcome), a, n.idx, c);
    assert RefNode(n, a, c) == RefRun(Call(n.inv, n.rest), a, n.idx, c);
    forall q | InvNode(x, a, c, q).Some? ensures InvNode(x, a, c, q) == InvNode(n, a, c, q) {}
  }

  // ---- Putting one attempt's step back into the whole state

  ghost predicate SameBut(s: State, s': State, r: nat) {
    && r in s.attempts
    && s'.attempts.Keys == s.attempts.Keys
    && (forall t :: t in s.attempts && t != r ==> s'.attempts[t] == s.attempts[t])
    && s'.attempts[r].token == s.attempts[r].token
    && s'.lease == s.lease
  }

  ghost predicate Grew(log: seq<Event>, log': seq<Event>) {
    log' == log || (|log'| == |log| + 1 && log' == log + [log'[|log|]] && Fresh(log, log'[|log|]))
  }

  lemma OutputsStay(sys: System, s: State, log': seq<Event>, f: Finish)
    requires Grew(s.log, log') && RefRun(sys.prog, [], 0, CtxOf(sys, MemoOf(s.log))) == Some(f)
    ensures RefRun(sys.prog, [], 0, CtxOf(sys, MemoOf(log'))) == Some(f)
  {
    if log' != s.log { MemoGrows(s.log, log'[|s.log|]); }
    RefMonotone(sys.prog, [], 0, CtxOf(sys, MemoOf(s.log)), CtxOf(sys, MemoOf(log')));
  }

  lemma InvKept(sys: System, s: State, s': State, r: nat)
    requires Inv(sys, s) && SameBut(s, s', r)
    requires Grew(s.log, s'.log) && (s'.log != s.log ==> Holds(s, r)) && LogOk(sys, s'.log)
    requires AttemptOk(sys, s'.log, s'.attempts[r])
    requires Holds(s, r) && !s'.attempts[r].phase.Waiting? ==> s'.attempts[r].view == View(|s'.log|, MemoOf(s'.log))
    requires IntentsOk(sys, s')
    requires s'.outputs == s.outputs && !s'.drift
    ensures Inv(sys, s')
  {
    forall t | t in s'.attempts ensures AttemptOk(sys, s'.log, s'.attempts[t]) {
      if t != r && s'.log != s.log { BystanderOk(sys, s.log, s.attempts[t], s'.log[|s.log|]); }
    }
    forall i | 0 <= i < |s'.outputs|
      ensures RefRun(sys.prog, [], 0, CtxOf(sys, MemoOf(s'.log))) == Some(s'.outputs[i])
    {
      OutputsStay(sys, s, s'.log, s.outputs[i]);
    }
    forall t | Holds(s', t) && !s'.attempts[t].phase.Waiting?
      ensures s'.attempts[t].view == View(|s'.log|, MemoOf(s'.log))
    {
      if t != r { assert Holds(s, t); }
    }
  }

  lemma PendingBound(sys: System, s: State, r: nat, q: Path)
    requires Inv(sys, s) && Pending(s, r, q).Some?
    ensures Pending(s, r, q).value < |s.log| && s.log[Pending(s, r, q).value].rpc.callKey == Dotted(q)
  {
    assert AttemptOk(sys, s.log, s.attempts[r]);
    assert FlightOk(sys, s.log, s.attempts[r].view.memo, q, FlightAt(s.attempts[r].node, q).value);
  }

  /** Steps that run no executor keep the intent bookkeeping. */
  lemma IntentsKept(sys: System, s: State, s': State, r: nat)
    requires Inv(sys, s) && SameBut(s, s', r)
    requires Grew(s.log, s'.log) && s'.execs == s.execs
    requires forall q :: Pending(s', r, q).None? || Pending(s', r, q) == Pending(s, r, q)
                         || (s'.log != s.log && Pending(s', r, q) == Some(|s.log|))
    ensures IntentsOk(sys, s')
  {
    forall j | 0 <= j < |s'.execs| ensures ExecOk(sys, s'.log, s'.execs[j]) {
      assert ExecOk(sys, s.log, s.execs[j]);
    }
    forall t, q | t != r ensures Pending(s', t, q) == Pending(s, t, q) {}
    forall j, t, q | 0 <= j < |s'.execs| && Pending(s', t, q).Some?
      ensures s'.execs[j].intentAt != Pending(s', t, q)
    {
      assert ExecOk(sys, s.log, s.execs[j]);
    }
    forall t, q, u, v | Pending(s', t, q).Some? && t != u
      ensures Pending(s', t, q) != Pending(s', u, v)
    {
      if Pending(s, t, q).Some? { PendingBound(sys, s, t, q); }
      if Pending(s, u, v).Some? { PendingBound(sys, s, u, v); }
    }
  }
}
