/** Schedule independence: when executors are functions of call key and invocation, every
    history - any interleaving of branches, any crashes - computes what plain evaluation does. */
module Schedules {
  import opened Types
  import opened CallKeys
  import opened Logs
  import opened Scripts
  import opened Nodes
  import opened Replay
  import opened ReplayInv
  import opened ReplaySteps

  /** An executor that always behaves the same under a call key, and neither parks nor fails silently. */
  ghost predicate Steady(f: (string, Invocation) -> Outcome) {
    forall k, inv :: !f(k, inv).Suspended? && f(k, inv) != Failure("")
  }

  /** Plain evaluation of a script: no log, no memo, branches one after the other. */
  ghost function Eval(p: Prog, path: Path, ctr: nat, granted: set<string>, f: (string, Invocation) -> Outcome): Finish
    requires Steady(f)
    decreases p
  {
    match p
    case Ret(fin) => fin
    case Call(inv, rest) =>
      var r := if inv.capability in granted then Live(inv, f(Dotted(path + [ctr]), inv)) else NotGranted(inv);
      if r in rest then Eval(rest[r], path, ctr + 1, granted, f) else NO_CONTINUATION.finish
    case Par(branches, joined) =>
      var j := Join(seq(|branches|, i requires 0 <= i < |branches| => Eval(branches[i], path + [ctr, i], 0, granted, f)));
      if j in joined then Eval(joined[j], path, ctr + 1, granted, f) else NO_CONTINUATION.finish
  }

  /** The call plain evaluation makes at `q`, if any. */
  ghost function EvalInv(p: Prog, path: Path, ctr: nat, granted: set<string>, f: (string, Invocation) -> Outcome, q: Path): Option<Invocation>
    requires Steady(f)
    decreases p
  {
    if q == [] || q[0] < ctr then None else
    match p
    case Ret(_) => None
    case Call(inv, rest) =>
      if q[0] == ctr then (if |q| == 1 then Some(inv) else None) else
        var r := if inv.capability in granted then Live(inv, f(Dotted(path + [ctr]), inv)) else NotGranted(inv);
        if r in rest then EvalInv(rest[r], path, ctr + 1, granted, f, q) else None
    case Par(branches, joined) =>
      if q[0] == ctr then
        (if |q| > 2 && q[1] < |branches| then EvalInv(branches[q[1]], path + [ctr, q[1]], 0, granted, f, q[2..]) else None)
      else
        var j := Join(seq(|branches|, i requires 0 <= i < |branches| => Eval(branches[i], path + [ctr, i], 0, granted, f)));
        if j in joined then EvalInv(joined[j], path, ctr + 1, granted, f, q) else None
  }

  ghost function EvalBranches(p: Prog, path: Path, ctr: nat, granted: set<string>, f: (string, Invocation) -> Outcome): seq<Finish>
    requires Steady(f) && p.Par?
  {
    seq(|p.branches|, i requires 0 <= i < |p.branches| => Eval(p.branches[i], path + [ctr, i], 0, granted, f))
  }

  /** Every recorded answer to a call the script makes is the executor's. */
  ghost predicate Answers(id: string, f: (string, Invocation) -> Outcome, p: Prog, path: Path, ctr: nat, c: Ctx)
    requires Steady(f)
  {
    forall q :: InvAt(p, path, ctr, c, q).Some? && Dotted(path + q) in c.memo ==>
      var inv := InvAt(p, path, ctr, c, q).value;
      c.memo[Dotted(path + q)] == ResultRecord(id, Dotted(path + q), inv, f(Dotted(path + q), inv))
  }

  /** The reference run of `p` is plain evaluation, call by call. */
  ghost predicate SameRun(f: (string, Invocation) -> Outcome, p: Prog, path: Path, ctr: nat, c: Ctx)
    requires Steady(f)
  {
    && RefRun(p, path, ctr, c) == Some(Eval(p, path, ctr, c.granted, f))
    && forall q :: InvAt(p, path, ctr, c, q) == EvalInv(p, path, ctr, c.granted, f, q)
  }

  lemma AnswersRest(id: string, f: (string, Invocation) -> Outcome, p: Prog, path: Path, ctr: nat, c: Ctx)
    requires Steady(f) && Answers(id, f, p, path, ctr, c) && p.Call? && RefRun(p, path, ctr, c).Some?
    ensures var r := Known(p.inv, Dotted(path + [ctr]), c).value; r in p.rest ==> Answers(id, f, p.rest[r], path, ctr + 1, c) && RefRun(p.rest[r], path, ctr + 1, c).Some?
  {
    var r := Known(p.inv, Dotted(path + [ctr]), c).value;
    if r in p.rest {
      forall q | InvAt(p.rest[r], path, ctr + 1, c, q).Some? ensures InvAt(p, path, ctr, c, q) == InvAt(p.rest[r], path, ctr + 1, c, q) {}
    }
  }

  lemma CallIsEval(id: string, f: (string, Invocation) -> Outcome, p: Prog, path: Path, ctr: nat, c: Ctx)
    requires Steady(f) && Answers(id, f, p, path, ctr, c) && p.Call? && RefRun(p, path, ctr, c).Some?
    requires var r := Known(p.inv, Dotted(path + [ctr]), c).value; r in p.rest ==> SameRun(f, p.rest[r], path, ctr + 1, c)
    ensures SameRun(f, p, path, ctr, c)
  {
    var key := Dotted(path + [ctr]);
    assert InvAt(p, path, ctr, c, [ctr]) == Some(p.inv);
    if p.inv.capability in c.granted { ReplayAnswersAlike(id, key, p.inv, f(key, p.inv)); }
  }

  /** A complete reference run over the executor's answers is plain evaluation, call by call. */
  lemma {:induction false} RefIsEval(id: string, f: (string, Invocation) -> Outcome, p: Prog, path: Path, ctr: nat, c: Ctx)
    requires Steady(f) && Answers(id, f, p, path, ctr, c) && RefRun(p, path, ctr, c).Some?
    ensures SameRun(f, p, path, ctr, c)
    decreases p
  {
    match p
    case Ret(_) =>
    case Call(inv, rest) =>
      AnswersRest(id, f, p, path, ctr, c);
      if Known(p.inv, Dotted(path + [ctr]), c).value in rest { RefIsEval(id, f, rest[Known(p.inv, Dotted(path + [ctr]), c).value], path, ctr + 1, c); }
      CallIsEval(id, f, p, path, ctr, c);
    case Par(branches, joined) =>
      BranchesAreEval(id, f, p, path, ctr, c);
      var j := Join(Values(Branches(p, path, ctr, c)));
      if j in joined {
        JoinedAnswers(id, f, p, path, ctr, c);
        RefIsEval(id, f, joined[j], path, ctr + 1, c);
      }
      JoinIsEval(f, p, path, ctr, c);
  }

  /** What a fork goes on with is answered by the executors too. */
  lemma JoinedAnswers(id: string, f: (string, Invocation) -> Outcome, p: Prog, path: Path, ctr: nat, c: Ctx)
    requires Steady(f) && p.Par? && Answers(id, f, p, path, ctr, c) && RefRun(p, path, ctr, c).Some?
    requires Join(Values(Branches(p, path, ctr, c))) in p.joined
    ensures var next := p.joined[Join(Values(Branches(p, path, ctr, c)))];
            Answers(id, f, next, path, ctr + 1, c) && RefRun(next, path, ctr + 1, c).Some?
  {
    var next := p.joined[Join(Values(Branches(p, path, ctr, c)))];
    forall q | InvAt(next, path, ctr + 1, c, q).Some? ensures InvAt(p, path, ctr, c, q) == InvAt(next, path, ctr + 1, c, q) {}
  }

  lemma JoinIsEval(f: (string, Invocation) -> Outcome, p: Prog, path: Path, ctr: nat, c: Ctx)
    requires Steady(f) && p.Par? && AllSome(Branches(p, path, ctr, c))
    requires Values(Branches(p, path, ctr, c)) == EvalBranches(p, path, ctr, c.granted, f)
    requires forall i, q :: 0 <= i < |p.branches| ==>
               InvAt(p.branches[i], path + [ctr, i], 0, c, q) == EvalInv(p.branches[i], path + [ctr, i], 0, c.granted, f, q)
    requires var j := Join(Values(Branches(p, path, ctr, c))); j in p.joined ==> SameRun(f, p.joined[j], path, ctr + 1, c)
    ensures SameRun(f, p, path, ctr, c)
  {
  }

  lemma {:induction false} BranchesAreEval(id: string, f: (string, Invocation) -> Outcome, p: Prog, path: Path, ctr: nat, c: Ctx)
    requires Steady(f) && p.Par? && Answers(id, f, p, path, ctr, c) && AllSome(Branches(p, path, ctr, c))
    ensures Values(Branches(p, path, ctr, c)) == EvalBranches(p, path, ctr, c.granted, f)
    ensures forall i, q :: 0 <= i < |p.branches| ==>
              InvAt(p.branches[i], path + [ctr, i], 0, c, q) == EvalInv(p.branches[i], path + [ctr, i], 0, c.granted, f, q)
    decreases p, 0
  {
    forall i | 0 <= i < |p.branches|
      ensures RefRun(p.branches[i], path + [ctr, i], 0, c) == Some(Eval(p.branches[i], path + [ctr, i], 0, c.granted, f))
      ensures forall q :: InvAt(p.branches[i], path + [ctr, i], 0, c, q) == EvalInv(p.branches[i], path + [ctr, i], 0, c.granted, f, q)
    {
      assert Branches(p, path, ctr, c)[i].Some?;
      BranchAnswers(id, f, p, path, ctr, c, i);
      RefIsEval(id, f, p.branches[i], path + [ctr, i], 0, c);
    }
  }

  lemma BranchAnswers(id: string, f: (string, Invocation) -> Outcome, p: Prog, path: Path, ctr: nat, c: Ctx, i: nat)
    requires Steady(f) && p.Par? && i < |p.branches| && Answers(id, f, p, path, ctr, c)
    ensures Answers(id, f, p.branches[i], path + [ctr, i], 0, c)
  {
    var under := path + [ctr, i];
    forall q | InvAt(p.branches[i], under, 0, c, q).Some? && Dotted(under + q) in c.memo
      ensures var inv := InvAt(p.branches[i], under, 0, c, q).value;
              c.memo[Dotted(under + q)] == ResultRecord(id, Dotted(under + q), inv, f(Dotted(under + q), inv))
    {
      var full := [ctr, i] + q;
      assert full[2..] == q && path + full == under + q;
      assert InvAt(p, path, ctr, c, full) == InvAt(p.branches[i], under, 0, c, q);
    }
  }

  /** A complete reference run has an answer for every granted call it makes. */
  lemma {:induction false} CompleteAnswersAll(p: Prog, path: Path, ctr: nat, c: Ctx, q: Path)
    requires RefRun(p, path, ctr, c).Some?
    requires InvAt(p, path, ctr, c, q).Some? && InvAt(p, path, ctr, c, q).value.capability in c.granted
    ensures Dotted(path + q) in c.memo
    decreases p
  {
    match p
    case Call(inv, rest) =>
      if q[0] == ctr {
        assert q == [ctr];
      } else {
        var r := if inv.capability !in c.granted then NotGranted(inv) else Replayed(inv, c.memo[Dotted(path + [ctr])]);
        CompleteAnswersAll(rest[r], path, ctr + 1, c, q);
      }
    case Par(branches, joined) =>
      if q[0] == ctr {
        assert Branches(p, path, ctr, c)[q[1]].Some?;
        CompleteAnswersAll(branches[q[1]], path + [ctr, q[1]], 0, c, q[2..]);
        assert path + [ctr, q[1]] + q[2..] == path + q;
      } else {
        CompleteAnswersAll(joined[Join(Values(Branches(p, path, ctr, c)))], path, ctr + 1, c, q);
      }
  }

  // ---- Where recorded results come from

  /** `rec` is what execution `e` gave. */
  ghost predicate Yields(sys: System, e: Execution, key: string, inv: Invocation, rec: RPCRecord) {
    e.key == key && e.inv == inv && !e.outcome.Suspended? && rec == ResultRecord(sys.id, key, inv, e.outcome)
  }

  ghost predicate ResultsSourced(sys: System, s: State) {
    forall i :: 0 <= i < |s.log| && s.log[i].Result? ==>
      exists j :: 0 <= j < |s.execs| && Yields(sys, s.execs[j], s.log[i].rpc.callKey, s.execs[j].inv, s.log[i].rpc)
                  && DueInv(sys, MemoOf(s.log), s.log[i].rpc.callKey) == Some(s.execs[j].inv)
  }

  ghost predicate FlightSourced(s: State, r: nat, q: Path) {
    Active(s, r) && FlightAt(s.attempts[r].node, q).Some? && FlightAt(s.attempts[r].node, q).value.stage.Returned? ==>
      var n := FlightAt(s.attempts[r].node, q).value;
      exists j :: 0 <= j < |s.execs| && s.execs[j].key == Dotted(q) && s.execs[j].inv == n.inv && s.execs[j].outcome == n.stage.outcome
  }

  ghost predicate Sourced(sys: System, s: State) {
    ResultsSourced(sys, s) && forall r: nat, q :: FlightSourced(s, r, q)
  }

  lemma SourcedGrows(sys: System, s: State, s': State, ev: Event)
    requires Inv(sys, s) && ResultsSourced(sys, s) && s'.log == s.log + [ev] && s'.execs == s.execs && Fresh(s.log, ev)
    requires ev.Result? ==> exists j :: 0 <= j < |s.execs| && Yields(sys, s.execs[j], ev.rpc.callKey, s.execs[j].inv, ev.rpc)
                                        && DueInv(sys, MemoOf(s.log), ev.rpc.callKey) == Some(s.execs[j].inv)
    ensures ResultsSourced(sys, s')
  {
    MemoGrows(s.log, ev);
    forall i | 0 <= i < |s'.log| && s'.log[i].Result?
      ensures exists j :: 0 <= j < |s'.execs| && Yields(sys, s'.execs[j], s'.log[i].rpc.callKey, s'.execs[j].inv, s'.log[i].rpc)
                  && DueInv(sys, MemoOf(s'.log), s'.log[i].rpc.callKey) == Some(s'.execs[j].inv)
    {
      var rec := s'.log[i].rpc;
      assert i < |s.log| ==> s.log[i] == s'.log[i];
      var j :| 0 <= j < |s.execs| && Yields(sys, s.execs[j], rec.callKey, s.execs[j].inv, rec)
               && DueInv(sys, MemoOf(s.log), rec.callKey) == Some(s.execs[j].inv);
      DueStays(sys, MemoOf(s.log), MemoOf(s'.log), rec.callKey);
      assert Yields(sys, s'.execs[j], rec.callKey, s'.execs[j].inv, rec);
    }
  }

  /** A step that leaves the tree alone, or puts a node with no fresh outcome into it. */
  lemma FlightsStaySourced(s: State, s': State, r: nat, a: Path, x: Node)
    requires SameBut(s, s', r) && s.execs <= s'.execs && forall t: nat, q :: FlightSourced(s, t, q)
    requires Active(s, r) && NodeAt(s.attempts[r].node, a).Some? && s'.attempts[r].node == Put(s.attempts[r].node, a, x)
    requires forall q :: FlightAt(x, q).Some? && FlightAt(x, q).value.stage.Returned? ==>
               var n := FlightAt(x, q).value;
               exists j :: 0 <= j < |s'.execs| && s'.execs[j].key == Dotted(a + q) && s'.execs[j].inv == n.inv && s'.execs[j].outcome == n.stage.outcome
    ensures forall t: nat, q :: FlightSourced(s', t, q)
  {
    forall t: nat, q ensures FlightSourced(s', t, q) {
      assert FlightSourced(s, t, q);
      if t == r {
        FlightInPut(s.attempts[r].node, a, x, q);
        if Prefix(a, q) { assert a + q[|a|..] == q; }
      }
    }
  }

  /** What a leaf's own execution gave it stays on record. */
  lemma ReturnedIsSourced(sys: System, s: State, r: nat, a: Path) returns (j: nat)
    requires Inv(sys, s) && Leaf(s, r, a).Some? && HasReturned(Leaf(s, r, a).value) && forall t: nat, q :: FlightSourced(s, t, q)
    ensures var n := Leaf(s, r, a).value;
            && j < |s.execs| && s.execs[j].inv == n.inv
            && Yields(sys, s.execs[j], KeyAt(n, a), n.inv, ResultRecord(sys.id, KeyAt(n, a), n.inv, n.stage.outcome))
            && DueInv(sys, MemoOf(s.log), KeyAt(n, a)) == Some(n.inv)
  {
    var n := Leaf(s, r, a).value;
    LeafFacts(sys, s, r, a);
    LeafFlight(s.attempts[r].node, a);
    assert FlightSourced(s, r, a + [n.idx]);
    j :| 0 <= j < |s.execs| && s.execs[j].key == Dotted(a + [n.idx]) && s.execs[j].inv == n.inv && s.execs[j].outcome == n.stage.outcome;
  }

  lemma WriteKeepsSourced(sys: System, s: State, r: nat, ev: Event, a: Path, x: Node, dirty: bool)
    requires Inv(sys, s) && Sourced(sys, s) && Leaf(s, r, a).Some? && UpToDate(s, r) && Fresh(s.log, ev)
    requires x.At? || (x.Flight? && !x.stage.Returned?)
    requires ev.Result? ==> exists j :: 0 <= j < |s.execs| && Yields(sys, s.execs[j], ev.rpc.callKey, s.execs[j].inv, ev.rpc)
                                        && DueInv(sys, MemoOf(s.log), ev.rpc.callKey) == Some(s.execs[j].inv)
    ensures Sourced(sys, Commit(s, r, Landed(s.log, ev), Put(s.attempts[r].node, a, x), dirty))
  {
    var s' := Commit(s, r, Landed(s.log, ev), Put(s.attempts[r].node, a, x), dirty);
    SourcedGrows(sys, s, s', ev);
    FlightsStaySourced(s, s', r, a, x);
  }

  lemma RecordKeepsSourced(sys: System, s: State, r: nat, a: Path, due: bool)
    requires Inv(sys, s) && Sourced(sys, s) && Enabled(sys, s, Record(r, a, due))
    ensures Sourced(sys, Next(sys, s, Record(r, a, due)))
  {
    var n := Leaf(s, r, a).value;
    var j := ReturnedIsSourced(sys, s, r, a);
    LeafFacts(sys, s, r, a);
    var rec := ResultRecord(sys.id, KeyAt(n, a), n.inv, n.stage.outcome);
    HolderWrites(s, r, Result(0, rec));
    WriteKeepsSourced(sys, s, r, Result(|s.log|, rec), a, AnsweredNode(sys, n, due), s.attempts[r].dirty || Mutated(sys, n));
  }

  lemma ExecuteKeepsSourced(sys: System, s: State, r: nat, a: Path, o: Outcome)
    requires Inv(sys, s) && Sourced(sys, s) && Enabled(sys, s, Execute(r, a, o))
    ensures Sourced(sys, Next(sys, s, Execute(r, a, o)))
  {
    var s' := Next(sys, s, Execute(r, a, o));
    var n := Leaf(s, r, a).value;
    LeafFlight(s.attempts[r].node, a);
    OwnOutcome(s'.execs, |s.execs|, n.(stage := Returned(o)), a);
    FlightsStaySourced(s, s', r, a, n.(stage := Returned(o)));
    ResultsStaySourced(sys, s, s');
  }

  /** A call that has just come back has its execution on record. */
  lemma OwnOutcome(execs: seq<Execution>, j: nat, x: Node, a: Path)
    requires j < |execs| && x.Flight? && x.stage.Returned?
    requires execs[j].key == Dotted(a + [x.idx]) && execs[j].inv == x.inv && execs[j].outcome == x.stage.outcome
    ensures forall q :: FlightAt(x, q).Some? && FlightAt(x, q).value.stage.Returned? ==>
              var n := FlightAt(x, q).value;
              exists j :: 0 <= j < |execs| && execs[j].key == Dotted(a + q) && execs[j].inv == n.inv && execs[j].outcome == n.stage.outcome
  {
  }

  lemma ResultsStaySourced(sys: System, s: State, s': State)
    requires ResultsSourced(sys, s) && s'.log == s.log && s.execs <= s'.execs
    ensures ResultsSourced(sys, s')
  {
    forall i | 0 <= i < |s'.log| && s'.log[i].Result?
      ensures exists j :: 0 <= j < |s'.execs| && Yields(sys, s'.execs[j], s'.log[i].rpc.callKey, s'.execs[j].inv, s'.log[i].rpc)
                  && DueInv(sys, MemoOf(s'.log), s'.log[i].rpc.callKey) == Some(s'.execs[j].inv)
    {
      var j :| 0 <= j < |s.execs| && Yields(sys, s.execs[j], s.log[i].rpc.callKey, s.execs[j].inv, s.log[i].rpc)
               && DueInv(sys, MemoOf(s.log), s.log[i].rpc.callKey) == Some(s.execs[j].inv);
      assert s'.execs[j] == s.execs[j];
    }
  }

  lemma AdvanceKeepsSourced(sys: System, s: State, r: nat, a: Path)
    requires Inv(sys, s) && Sourced(sys, s) && Enabled(sys, s, Advance(r, a))
    ensures Sourced(sys, Next(sys, s, Advance(r, a)))
  {
    var n := Leaf(s, r, a).value;
    var x := Advanced(sys, n, KeyAt(n, a), s.attempts[r].view.memo);
    AdvanceMoves(sys, s, r, a);
    AdvancedShape(sys, n, KeyAt(n, a), s.attempts[r].view.memo);
    FlightsStaySourced(s, Move(s, r, a, x), r, a, x);
    ResultsStaySourced(sys, s, Move(s, r, a, x));
  }

  lemma SnapshotKeepsSourced(sys: System, s: State, r: nat, a: Path, key: string)
    requires Inv(sys, s) && Sourced(sys, s) && Enabled(sys, s, Snapshot(r, a, key))
    ensures Sourced(sys, Next(sys, s, Snapshot(r, a, key)))
  {
    var pos := s.attempts[r].view.cursor;
    HolderWrites(s, r, Barrier(0, key, pos));
    WriteKeepsSourced(sys, s, r, Barrier(|s.log|, key, pos), a, ResumedNode(Leaf(s, r, a).value), false);
  }

  lemma FlushKeepsSourced(sys: System, s: State, r: nat, key: string)
    requires Inv(sys, s) && Sourced(sys, s) && Enabled(sys, s, Flush(r, key))
    ensures Sourced(sys, Next(sys, s, Flush(r, key)))
  {
    var s' := Next(sys, s, Flush(r, key));
    HolderWrites(s, r, Barrier(0, key, s.attempts[r].view.cursor));
    SourcedGrows(sys, s, s', Barrier(|s.log|, key, s.attempts[r].view.cursor));
    forall t: nat, q ensures FlightSourced(s', t, q) { assert FlightSourced(s, t, q); }
  }

  lemma AnnounceKeepsSourced(sys: System, s: State, r: nat, a: Path)
    requires Inv(sys, s) && Sourced(sys, s) && Enabled(sys, s, Announce(r, a))
    ensures Sourced(sys, Next(sys, s, Announce(r, a)))
  {
    var n := Leaf(s, r, a).value;
    HolderWrites(s, r, Intent(0, CallRecord(sys.id, KeyAt(n, a), n.inv)));
    WriteKeepsSourced(sys, s, r, Intent(|s.log|, CallRecord(sys.id, KeyAt(n, a), n.inv)), a,
                      n.(stage := Announced(|s.log|)), s.attempts[r].dirty);
  }

  /** The calls in flight of attempt `t` are those it had before. */
  ghost predicate FlightsStay(s: State, s': State, t: nat) {
    Active(s', t) ==> NoFlights(s'.attempts[t].node) || (Active(s, t) && s'.attempts[t].node == s.attempts[t].node)
  }

  ghost predicate KeepsLog(l: Label) {
    l.Acquire? || l.Read? || l.Park? || l.Finish? || l.Release? || l.Crash? || l.Restart?
  }

  lemma OtherFlights(sys: System, s: State, l: Label, t: nat)
    requires Inv(sys, s) && Enabled(sys, s, l) && KeepsLog(l)
    ensures FlightsStay(s, Next(sys, s, l), t)
  {
    if l.Read? {
      assert AttemptOk(sys, s.log, s.attempts[l.r]);
      FreshKidsHaveNoFlights(s.attempts[l.r].node);
    }
  }

  lemma OtherLog(sys: System, s: State, l: Label)
    requires Enabled(sys, s, l) && KeepsLog(l)
    ensures Next(sys, s, l).log == s.log && s.execs <= Next(sys, s, l).execs
  {
  }

  lemma StaysSourced(s: State, s': State, t: nat, q: Path)
    requires FlightsStay(s, s', t) && s.execs <= s'.execs && FlightSourced(s, t, q)
    ensures FlightSourced(s', t, q)
  {
  }

  lemma OtherKeepsSourced(sys: System, s: State, l: Label)
    requires Inv(sys, s) && Sourced(sys, s) && Enabled(sys, s, l) && KeepsLog(l)
    ensures Sourced(sys, Next(sys, s, l))
  {
    var s' := Next(sys, s, l);
    OtherLog(sys, s, l);
    ResultsStaySourced(sys, s, s');
    forall t: nat, q ensures FlightSourced(s', t, q) {
      OtherFlights(sys, s, l, t);
      StaysSourced(s, s', t, q);
    }
  }

  lemma {:induction false} PlayKeepsSourced(sys: System, ls: seq<Label>)
    requires Legal(sys, ls)
    ensures Sourced(sys, Play(sys, ls))
    decreases |ls|
  {
    if ls != [] {
      var s, l := Play(sys, ls[..|ls| - 1]), ls[|ls| - 1];
      PlayKeeps(sys, ls[..|ls| - 1]);
      PlayKeepsSourced(sys, ls[..|ls| - 1]);
      match l
      case Announce(r, a) => AnnounceKeepsSourced(sys, s, r, a);
      case Record(r, a, due) => RecordKeepsSourced(sys, s, r, a, due);
      case Snapshot(r, a, key) => SnapshotKeepsSourced(sys, s, r, a, key);
      case Flush(r, key) => FlushKeepsSourced(sys, s, r, key);
      case Execute(r, a, o) => ExecuteKeepsSourced(sys, s, r, a, o);
      case Advance(r, a) => AdvanceKeepsSourced(sys, s, r, a);
      case _ => OtherKeepsSourced(sys, s, l);
    }
  }

  // ---- The theorem

  /** All executors that ran behaved as `f`. */
  ghost predicate RanAs(s: State, f: (string, Invocation) -> Outcome) {
    forall j :: 0 <= j < |s.execs| ==> s.execs[j].outcome == f(s.execs[j].key, s.execs[j].inv)
  }

  lemma MemoAnswers(sys: System, ls: seq<Label>, f: (string, Invocation) -> Outcome, key: string)
    requires Legal(sys, ls) && Steady(f) && RanAs(Play(sys, ls), f) && key in MemoOf(Play(sys, ls).log)
    ensures var memo := MemoOf(Play(sys, ls).log);
            && DueInv(sys, memo, key).Some? && DueInv(sys, memo, key).value.capability in sys.granted
            && memo[key] == ResultRecord(sys.id, key, DueInv(sys, memo, key).value, f(key, DueInv(sys, memo, key).value))
  {
    var s := Play(sys, ls);
    PlayKeeps(sys, ls);
    PlayKeepsSourced(sys, ls);
    var i := MemoIsRecorded(s.log, key);
    assert RecordOk(sys, MemoOf(s.log), s.log[i].rpc);
    var j :| 0 <= j < |s.execs| && Yields(sys, s.execs[j], s.log[i].rpc.callKey, s.execs[j].inv, s.log[i].rpc)
             && DueInv(sys, MemoOf(s.log), s.log[i].rpc.callKey) == Some(s.execs[j].inv);
  }

  /** However branches interleave and attempts crash: a finished history ends with the value -
      or the lowest-index error - of plain evaluation, and records exactly its granted calls,
      each with the executor's answer. */
  lemma ScheduleIndependence(sys: System, ls: seq<Label>, f: (string, Invocation) -> Outcome)
    requires Legal(sys, ls) && Steady(f) && RanAs(Play(sys, ls), f) && Play(sys, ls).outputs != []
    ensures forall i :: 0 <= i < |Play(sys, ls).outputs| ==> Play(sys, ls).outputs[i] == Eval(sys.prog, [], 0, sys.granted, f)
    ensures var memo := MemoOf(Play(sys, ls).log);
            && (forall q: Path :: Dotted(q) in memo <==>
                  EvalInv(sys.prog, [], 0, sys.granted, f, q).Some? && EvalInv(sys.prog, [], 0, sys.granted, f, q).value.capability in sys.granted)
            && (forall q: Path :: Dotted(q) in memo ==>
                  var inv := EvalInv(sys.prog, [], 0, sys.granted, f, q).value;
                  memo[Dotted(q)] == ResultRecord(sys.id, Dotted(q), inv, f(Dotted(q), inv)))
  {
    var s := Play(sys, ls);
    var memo := MemoOf(s.log);
    var c := CtxOf(sys, memo);
    PlayKeeps(sys, ls);
    forall q | Dotted(q) in memo
      ensures InvAt(sys.prog, [], 0, c, q).Some? && InvAt(sys.prog, [], 0, c, q).value.capability in sys.granted
      ensures memo[Dotted(q)] == ResultRecord(sys.id, Dotted(q), InvAt(sys.prog, [], 0, c, q).value, f(Dotted(q), InvAt(sys.prog, [], 0, c, q).value))
    {
      MemoAnswers(sys, ls, f, Dotted(q));
      DueAt(sys, memo, q);
    }
    assert forall q: Path :: [] + q == q;
    assert RefRun(sys.prog, [], 0, c) == Some(s.outputs[0]);
    RefIsEval(sys.id, f, sys.prog, [], 0, c);
    forall q: Path | InvAt(sys.prog, [], 0, c, q).Some? && InvAt(sys.prog, [], 0, c, q).value.capability in sys.granted
      ensures Dotted(q) in memo
    {
      CompleteAnswersAll(sys.prog, [], 0, c, q);
    }
  }

  /** Two finished histories of one script over the same executors record the same results. */
  lemma SameMemoEverywhere(sys: System, ls: seq<Label>, ms: seq<Label>, f: (string, Invocation) -> Outcome)
    requires Legal(sys, ls) && Legal(sys, ms) && Steady(f)
    requires RanAs(Play(sys, ls), f) && RanAs(Play(sys, ms), f)
    requires Play(sys, ls).outputs != [] && Play(sys, ms).outputs != []
    ensures MemoOf(Play(sys, ls).log) == MemoOf(Play(sys, ms).log)
    ensures Play(sys, ls).outputs[0] == Play(sys, ms).outputs[0]
  {
    ScheduleIndependence(sys, ls, f);
    ScheduleIndependence(sys, ms, f);
    var a, b := MemoOf(Play(sys, ls).log), MemoOf(Play(sys, ms).log);
    forall key ensures (key in a <==> key in b) && (key in a ==> a[key] == b[key]) {
      if key in a { MemoAnswers(sys, ls, f, key); assert Dotted(PathOf(key)) == key; }
      if key in b { MemoAnswers(sys, ms, f, key); assert Dotted(PathOf(key)) == key; }
    }
  }
}
