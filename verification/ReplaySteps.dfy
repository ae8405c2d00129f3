/** Every step of the replay system keeps its invariant. */
module ReplaySteps {
  import opened Types
  import opened CallKeys
  import opened Logs
  import opened Scripts
  import opened Nodes
  import opened Replay
  import opened ReplayInv

  /** The flight a leaf stands for, seen from the root. */
  lemma LeafFlight(n: Node, a: Path)
    requires NodeAt(n, a).Some? && NodeAt(n, a).value.Flight?
    ensures var f := NodeAt(n, a).value; FlightAt(n, a + [f.idx]) == Some(f) && KeyAt(f, a) == Dotted(a + [f.idx])
  {
    var f := NodeAt(n, a).value;
    FlightInPut(n, a, f, a + [f.idx]);
    assert (a + [f.idx])[..|a|] == a && (a + [f.idx])[|a|..] == [f.idx];
  }

  /** Facts about a leaf in flight that every step on it starts from. */
  lemma LeafFacts(sys: System, s: State, r: nat, a: Path)
    requires Inv(sys, s) && Leaf(s, r, a).Some? && Leaf(s, r, a).value.Flight?
    ensures var f := Leaf(s, r, a).value;
            && FlightOk(sys, s.log, s.attempts[r].view.memo, a + [f.idx], f)
            && KeyAt(f, a) == Dotted(a + [f.idx])
            && DueInv(sys, s.attempts[r].view.memo, KeyAt(f, a)) == Some(f.inv)
            && DueInv(sys, MemoOf(s.log), KeyAt(f, a)) == Some(f.inv)
            && RefRun(sys.prog, [], 0, CtxOf(sys, s.attempts[r].base)).None?
  {
    var at := s.attempts[r];
    var f := Leaf(s, r, a).value;
    assert AttemptOk(sys, s.log, at);
    LeafFlight(at.node, a);
    var c := CtxOf(sys, at.view.memo);
    FlightIsDue(at.node, [], c, a + [f.idx]);
    assert Continues(at.node, At(sys.prog, 0), [], c);
    DueAt(sys, at.view.memo, a + [f.idx]);
    DueStays(sys, at.view.memo, MemoOf(s.log), KeyAt(f, a));
  }

  /** The leaf of a running attempt may be replaced by anything that is fine in its place. */
  lemma AttemptMoves(sys: System, log: seq<Event>, at: Attempt, a: Path, x: Node)
    requires AttemptOk(sys, log, at) && at.phase.Running? && NodeAt(at.node, a).Some?
    requires MoveOk(sys, log, at.view.memo, a, NodeAt(at.node, a).value, x)
    requires RefRun(sys.prog, [], 0, CtxOf(sys, at.base)).Some? ==> NoFlights(x)
    ensures AttemptOk(sys, log, at.(node := Put(at.node, a, x)))
  {
    MoveTracks(sys, at.view.memo, at.view.memo, at.node, a, x);
    MoveFlights(sys, log, at.view.memo, at.node, a, x);
    if RefRun(sys.prog, [], 0, CtxOf(sys, at.base)).Some? {
      forall q ensures FlightAt(Put(at.node, a, x), q).None? { FlightInPut(at.node, a, x, q); }
    }
  }

  ghost function PendingOf(n: Node, q: Path): Option<nat> {
    if FlightAt(n, q).Some? && FlightAt(n, q).value.stage.Announced? then Some(FlightAt(n, q).value.stage.intentAt) else None
  }

  /** A step inside one attempt moves no announced intent, except at the leaf it touches. */
  lemma MovedPending(s: State, s': State, r: nat, a: Path, x: Node, q: Path)
    requires Active(s, r) && NodeAt(s.attempts[r].node, a).Some?
    requires Active(s', r) && s'.attempts[r].node == Put(s.attempts[r].node, a, x)
    ensures Pending(s', r, q) == if Prefix(a, q) then PendingOf(x, q[|a|..]) else Pending(s, r, q)
  {
    FlightInPut(s.attempts[r].node, a, x, q);
  }

  // ---- Advance

  /** Advancing an attempt that started from a complete log misses nothing. */
  lemma AdvanceStaysQuiet(sys: System, log: seq<Event>, at: Attempt, a: Path)
    requires AttemptOk(sys, log, at) && at.phase.Running?
    requires NodeAt(at.node, a).Some? && CanAdvance(NodeAt(at.node, a).value)
    requires RefRun(sys.prog, [], 0, CtxOf(sys, at.base)).Some?
    ensures var n := NodeAt(at.node, a).value; NoFlights(Advanced(sys, n, KeyAt(n, a), at.view.memo))
  {
    var n := NodeAt(at.node, a).value;
    var c := CtxOf(sys, at.base);
    assert Continues(at.node, At(sys.prog, 0), [], c);
    EndedAnswersNext(at.node, [], c, a);
    assert [] + a == a;
    FreshKidsHaveNoFlights(Advanced(sys, n, KeyAt(n, a), at.view.memo));
  }

  /** The replay check passes, so advancing only moves the leaf. */
  lemma AdvanceMoves(sys: System, s: State, r: nat, a: Path)
    requires Inv(sys, s) && Enabled(sys, s, Advance(r, a))
    ensures var n := Leaf(s, r, a).value;
            Next(sys, s, Advance(r, a)) == Move(s, r, a, Advanced(sys, n, KeyAt(n, a), s.attempts[r].view.memo))
  {
    var n := Leaf(s, r, a).value;
    if n.At? && n.prog.Call? && KeyAt(n, a) in s.attempts[r].view.memo { HitMatches(sys, s, r, a); }
  }

  lemma AdvanceKeeps(sys: System, s: State, r: nat, a: Path)
    requires Inv(sys, s) && Enabled(sys, s, Advance(r, a))
    ensures Inv(sys, Next(sys, s, Advance(r, a)))
  {
    var n := Leaf(s, r, a).value;
    AdvanceMoves(sys, s, r, a);
    AdvancedKeeps(sys, s, r, a, Advanced(sys, n, KeyAt(n, a), s.attempts[r].view.memo));
  }

  ghost predicate HitOk(sys: System, memo: map<string, RPCRecord>, a: Path, n: Node) {
    n.At? && n.prog.Call? && KeyAt(n, a) in memo ==> n.prog.inv.capability in sys.granted && SameCall(memo[KeyAt(n, a)], n.prog.inv)
  }

  /** What a leaf turns into by advancing is fine in its place. */
  lemma AdvanceAllowed(sys: System, log: seq<Event>, at: Attempt, a: Path, n: Node)
    requires AttemptOk(sys, log, at) && at.phase.Running? && NodeAt(at.node, a) == Some(n) && CanAdvance(n) && HitOk(sys, at.view.memo, a, n)
    ensures var x := Advanced(sys, n, KeyAt(n, a), at.view.memo);
            && MoveOk(sys, log, at.view.memo, a, n, x)
            && (RefRun(sys.prog, [], 0, CtxOf(sys, at.base)).Some? ==> NoFlights(x))
            && (forall q :: PendingOf(x, q).None?)
  {
    AdvanceOk(sys, log, at.view.memo, a, n);
    if RefRun(sys.prog, [], 0, CtxOf(sys, at.base)).Some? { AdvanceStaysQuiet(sys, log, at, a); }
    AdvancedShape(sys, n, KeyAt(n, a), at.view.memo);
  }

  lemma AdvancedKeeps(sys: System, s: State, r: nat, a: Path, x: Node)
    requires Inv(sys, s) && Enabled(sys, s, Advance(r, a))
    requires var n := Leaf(s, r, a).value; x == Advanced(sys, n, KeyAt(n, a), s.attempts[r].view.memo)
    ensures Inv(sys, Move(s, r, a, x))
  {
    var at, n := s.attempts[r], Leaf(s, r, a).value;
    assert AttemptOk(sys, s.log, at);
    if n.At? && n.prog.Call? && KeyAt(n, a) in at.view.memo { HitMatches(sys, s, r, a); }
    AdvanceAllowed(sys, s.log, at, a, n);
    MoveKeeps(sys, s, r, a, x);
  }

  /** Moving a leaf without announcing anything keeps the invariant. */
  lemma MoveKeeps(sys: System, s: State, r: nat, a: Path, x: Node)
    requires Inv(sys, s) && Leaf(s, r, a).Some?
    requires MoveOk(sys, s.log, s.attempts[r].view.memo, a, Leaf(s, r, a).value, x)
    requires RefRun(sys.prog, [], 0, CtxOf(sys, s.attempts[r].base)).Some? ==> NoFlights(x)
    requires forall q :: PendingOf(x, q).None?
    ensures Inv(sys, Move(s, r, a, x))
  {
    var s' := Move(s, r, a, x);
    AttemptMoves(sys, s.log, s.attempts[r], a, x);
    forall q ensures Pending(s', r, q).None? || Pending(s', r, q) == Pending(s, r, q) {
      MovedPending(s, s', r, a, x, q);
    }
    IntentsKept(sys, s, s', r);
    InvKept(sys, s, s', r);
  }

  /** A memo hit passes the replay check, and its call is granted. */
  lemma HitMatches(sys: System, s: State, r: nat, a: Path)
    requires Inv(sys, s) && Leaf(s, r, a).Some?
    requires var n := Leaf(s, r, a).value; n.At? && n.prog.Call? && KeyAt(n, a) in s.attempts[r].view.memo
    ensures var n := Leaf(s, r, a).value;
            n.prog.inv.capability in sys.granted && SameCall(s.attempts[r].view.memo[KeyAt(n, a)], n.prog.inv)
  {
    var at := s.attempts[r];
    var n := Leaf(s, r, a).value;
    var key := KeyAt(n, a);
    assert AttemptOk(sys, s.log, at);
    var i := MemoIsRecorded(s.log, key);
    assert RecordOk(sys, MemoOf(s.log), s.log[i].rpc);
    var c := CtxOf(sys, at.view.memo);
    NodeIsDue(at.node, [], c, a);
    assert [] + a == a;
    assert Continues(at.node, At(sys.prog, 0), [], c);
    DueAt(sys, at.view.memo, a + [n.ctr]);
    DueStays(sys, at.view.memo, MemoOf(s.log), key);
  }

  lemma {:induction false} NodeIsDue(n: Node, path: Path, c: Ctx, a: Path)
    requires NodeAt(n, a).Some? && NodeAt(n, a).value.At? && NodeAt(n, a).value.prog.Call?
    ensures InvNode(n, path, c, a + [NodeAt(n, a).value.ctr]) == Some(NodeAt(n, a).value.prog.inv)
    decreases n
  {
    var x := NodeAt(n, a).value;
    if a == [] {
      assert a + [x.ctr] == [x.ctr];
    } else {
      NodeIsDue(n.kids[a[1]], path + [n.idx, a[1]], c, a[2..]);
      assert (a + [x.ctr])[2..] == a[2..] + [x.ctr];
    }
  }

  // ---- Announce, Execute, Park

  ghost predicate UpToDate(s: State, r: nat) {
    Holds(s, r) && s.attempts[r].view == View(|s.log|, MemoOf(s.log))
  }

  ghost function Landed(log: seq<Event>, ev: Event): Written {
    Written(true, log + [ev], View(|log| + 1, MemoOf(log + [ev])))
  }

  /** The holder's write lands at the end of the log, and its view follows. */
  lemma HolderWrites(s: State, r: nat, ev: Event)
    requires UpToDate(s, r)
    ensures Through(s, r, ev) == Landed(s.log, Renumber(ev, |s.log|))
  {
    MemoSnoc(s.log, Renumber(ev, |s.log|));
  }

  /** A writing step keeps the invariant when it is fine for the log and for the writer. */
  lemma CommitKeeps(sys: System, s: State, r: nat, ev: Event, node: Node, dirty: bool)
    requires Inv(sys, s) && Holds(s, r) && !s.attempts[r].phase.Waiting?
    requires Fresh(s.log, ev) && LogOk(sys, s.log + [ev])
    requires AttemptOk(sys, s.log + [ev], s.attempts[r].(view := Landed(s.log, ev).view, node := node, dirty := dirty))
    requires forall q :: PendingOf(node, q).None? || PendingOf(node, q) == PendingOf(s.attempts[r].node, q)
                         || PendingOf(node, q) == Some(|s.log|)
    ensures Inv(sys, Commit(s, r, Landed(s.log, ev), node, dirty))
  {
    var s' := Commit(s, r, Landed(s.log, ev), node, dirty);
    assert s'.log[|s.log|] == ev;
    assert forall q :: Active(s', r) ==> Pending(s', r, q) == PendingOf(node, q) && Pending(s, r, q) == PendingOf(s.attempts[r].node, q);
    IntentsKept(sys, s, s', r);
    InvKept(sys, s, s', r);
  }

  lemma AnnounceLog(sys: System, log: seq<Event>, key: string, inv: Invocation)
    requires LogOk(sys, log) && DueInv(sys, MemoOf(log), key) == Some(inv) && inv.capability in sys.granted
    ensures var ev := Intent(|log|, CallRecord(sys.id, key, inv));
            LogOk(sys, log + [ev]) && Fresh(log, ev) && MemoOf(log + [ev]) == MemoOf(log) && (log + [ev])[|log|] == ev
  {
    var ev := Intent(|log|, CallRecord(sys.id, key, inv));
    LogGrows(sys, log, ev);
    MemoSnoc(log, ev);
  }

  /** An attempt's cursor may move on while it learns no new result. */
  lemma CursorMoves(sys: System, log: seq<Event>, at: Attempt, v: View)
    requires AttemptOk(sys, log, at) && !at.phase.Waiting? && v.memo == at.view.memo && v.cursor <= |log|
    ensures AttemptOk(sys, log, at.(view := v))
  {
  }

  /** Announcing changes neither where the script ends nor what it calls. */
  lemma AnnounceMove(sys: System, log: seq<Event>, ev: Event, memo: map<string, RPCRecord>, a: Path, n: Node)
    requires Unannounced(n) && FlightOk(sys, log, memo, a + [n.idx], n)
    requires ev == Intent(|log|, CallRecord(sys.id, Dotted(a + [n.idx]), n.inv))
    ensures MoveOk(sys, log + [ev], memo, a, n, n.(stage := Announced(|log|)))
  {
    var x := n.(stage := Announced(|log|));
    assert (log + [ev])[|log|] == ev;
    assert FlightOk(sys, log + [ev], memo, a + [n.idx], x);
  }

  lemma AnnounceAttempt(sys: System, log: seq<Event>, ev: Event, at: Attempt, a: Path, n: Node)
    requires AttemptOk(sys, log, at) && at.phase.Running? && Fresh(log, ev)
    requires MemoOf(log + [ev]) == at.view.memo == MemoOf(log)
    requires NodeAt(at.node, a) == Some(n) && Unannounced(n) && FlightOk(sys, log, at.view.memo, a + [n.idx], n)
    requires ev == Intent(|log|, CallRecord(sys.id, Dotted(a + [n.idx]), n.inv)) && (log + [ev])[|log|] == ev
    requires RefRun(sys.prog, [], 0, CtxOf(sys, at.base)).None?
    ensures AttemptOk(sys, log + [ev], at.(view := Landed(log, ev).view, node := Put(at.node, a, n.(stage := Announced(|log|)))))
  {
    BystanderOk(sys, log, at, ev);
    CursorMoves(sys, log + [ev], at, Landed(log, ev).view);
    AnnounceMove(sys, log, ev, at.view.memo, a, n);
    AttemptMoves(sys, log + [ev], at.(view := Landed(log, ev).view), a, n.(stage := Announced(|log|)));
  }

  lemma PutPending(n: Node, a: Path, x: Node, q: Path)
    requires NodeAt(n, a).Some?
    ensures PendingOf(Put(n, a, x), q) == if Prefix(a, q) then PendingOf(x, q[|a|..]) else PendingOf(n, q)
  {
    FlightInPut(n, a, x, q);
  }

  /** Putting a node into a tree announces only what the node announces. */
  lemma PutAnnounces(n: Node, a: Path, x: Node, next: nat)
    requires NodeAt(n, a).Some?
    requires x.At? || (x.Flight? && (x.stage.Announced? ==> x.stage.intentAt == next))
    ensures forall q :: var p := PendingOf(Put(n, a, x), q); p.None? || p == PendingOf(n, q) || p == Some(next)
  {
    forall q ensures var p := PendingOf(Put(n, a, x), q); p.None? || p == PendingOf(n, q) || p == Some(next) {
      PutPending(n, a, x, q);
    }
  }

  /** A write that also replaces the writer's leaf `a` by `x`. */
  lemma WriteKeeps(sys: System, s: State, r: nat, a: Path, ev: Event, x: Node, dirty: bool)
    requires Inv(sys, s) && UpToDate(s, r) && Leaf(s, r, a).Some?
    requires x.At? || (x.Flight? && (x.stage.Announced? ==> x.stage.intentAt == |s.log|))
    requires var e := Renumber(ev, |s.log|);
             && Fresh(s.log, e) && LogOk(sys, s.log + [e])
             && AttemptOk(sys, s.log + [e], s.attempts[r].(view := Landed(s.log, e).view, node := Put(s.attempts[r].node, a, x), dirty := dirty))
    ensures Inv(sys, Commit(s, r, Through(s, r, ev), Put(s.attempts[r].node, a, x), dirty))
  {
    HolderWrites(s, r, ev);
    PutAnnounces(s.attempts[r].node, a, x, |s.log|);
    CommitKeeps(sys, s, r, Renumber(ev, |s.log|), Put(s.attempts[r].node, a, x), dirty);
  }

  lemma AnnounceKeeps(sys: System, s: State, r: nat, a: Path)
    requires Inv(sys, s) && Enabled(sys, s, Announce(r, a))
    ensures Inv(sys, Next(sys, s, Announce(r, a)))
  {
    var at, n := s.attempts[r], Leaf(s, r, a).value;
    LeafFacts(sys, s, r, a);
    AnnounceLog(sys, s.log, KeyAt(n, a), n.inv);
    AnnounceAttempt(sys, s.log, Intent(|s.log|, CallRecord(sys.id, KeyAt(n, a), n.inv)), at, a, n);
    WriteKeeps(sys, s, r, a, Intent(0, CallRecord(sys.id, KeyAt(n, a), n.inv)), n.(stage := Announced(|s.log|)), at.dirty);
  }

  /** The announced intent an execution uses belongs to this call of this attempt alone. */
  lemma IntentIsOwn(sys: System, s: State, r: nat, q: Path, t: nat, u: Path)
    requires Inv(sys, s) && Pending(s, r, q).Some? && (t != r || u != q)
    ensures Pending(s, t, u) != Pending(s, r, q)
  {
    if t == r && Pending(s, t, u) == Pending(s, r, q) {
      PendingBound(sys, s, r, q);
      PendingBound(sys, s, r, u);
      DottedInjective(q, u);
    }
  }

  lemma ExecutionOk(sys: System, s: State, r: nat, a: Path, o: Outcome)
    requires Inv(sys, s) && Leaf(s, r, a).Some? && Executable(Leaf(s, r, a).value)
    ensures var n := Leaf(s, r, a).value; var e := ExecutionOf(sys, n, KeyAt(n, a), o);
            ExecOk(sys, s.log, e) && (e.intentAt.Some? ==> e.intentAt == Pending(s, r, a + [n.idx]))
  {
    LeafFacts(sys, s, r, a);
    LeafFlight(s.attempts[r].node, a);
  }

  lemma ReturnAttempt(sys: System, log: seq<Event>, at: Attempt, a: Path, n: Node, o: Outcome)
    requires AttemptOk(sys, log, at) && at.phase.Running? && NodeAt(at.node, a) == Some(n) && Executable(n)
    requires FlightOk(sys, log, at.view.memo, a + [n.idx], n) && !o.Suspended? && o != Failure("")
    requires RefRun(sys.prog, [], 0, CtxOf(sys, at.base)).None?
    ensures AttemptOk(sys, log, at.(node := Put(at.node, a, n.(stage := Returned(o)))))
  {
    AttemptMoves(sys, log, at, a, n.(stage := Returned(o)));
  }

  lemma ExecuteKeeps(sys: System, s: State, r: nat, a: Path, o: Outcome)
    requires Inv(sys, s) && Enabled(sys, s, Execute(r, a, o))
    ensures Inv(sys, Next(sys, s, Execute(r, a, o)))
  {
    var n := Leaf(s, r, a).value;
    var s' := Next(sys, s, Execute(r, a, o));
    var e := ExecutionOf(sys, n, KeyAt(n, a), o);
    LeafFacts(sys, s, r, a);
    ReturnAttempt(sys, s.log, s.attempts[r], a, n, o);
    ExecutionOk(sys, s, r, a, o);
    ExecutedPending(s, s', r, a, n.(stage := Returned(o)));
    IntentUnshared(sys, s, r, a + [n.idx], e);
    UsedIntent(sys, s, s', e);
    InvKept(sys, s, s', r);
  }

  lemma ExecutedPending(s: State, s': State, r: nat, a: Path, x: Node)
    requires Leaf(s, r, a).Some? && Leaf(s, r, a).value.Flight? && SameBut(s, s', r)
    requires Active(s', r) && s'.attempts[r].node == Put(s.attempts[r].node, a, x)
    requires x.Flight? && x.idx == Leaf(s, r, a).value.idx && !x.stage.Announced?
    ensures forall t: nat, q :: Pending(s', t, q) == if t == r && q == a + [x.idx] then None else Pending(s, t, q)
  {
    LeafFlight(s.attempts[r].node, a);
    forall t: nat, q ensures Pending(s', t, q) == if t == r && q == a + [x.idx] then None else Pending(s, t, q) {
      if t == r {
        MovedPending(s, s', r, a, x, q);
        FlightInPut(s.attempts[r].node, a, x, q);
        if Prefix(a, q) { assert q == a + q[|a|..]; }
      }
    }
  }

  /** Executing moves at most one intent from announced to used. */
  lemma UsedIntent(sys: System, s: State, s': State, e: Execution)
    requires IntentsOk(sys, s) && s'.log == s.log && s'.execs == s.execs + [e]
    requires ExecOk(sys, s.log, e)
    requires forall j :: 0 <= j < |s.execs| && e.intentAt.Some? ==> s.execs[j].intentAt != e.intentAt
    requires forall t: nat, q :: Pending(s', t, q).Some? ==>
               Pending(s', t, q) == Pending(s, t, q) && Pending(s', t, q) != e.intentAt
    ensures IntentsOk(sys, s')
  {
    forall j, t: nat, q | 0 <= j < |s'.execs| && Pending(s', t, q).Some? ensures s'.execs[j].intentAt != Pending(s', t, q) {
      if j < |s.execs| { assert s.execs[j].intentAt != Pending(s, t, q); }
    }
    forall t: nat, q, u: nat, v | Pending(s', t, q).Some? && t != u ensures Pending(s', t, q) != Pending(s', u, v) {
      assert Pending(s, t, q) != Pending(s, u, v);
    }
  }

  /** The intent behind an execution is nobody else's. */
  lemma IntentUnshared(sys: System, s: State, r: nat, q: Path, e: Execution)
    requires Inv(sys, s) && (e.intentAt.Some? ==> e.intentAt == Pending(s, r, q))
    ensures forall j :: 0 <= j < |s.execs| && e.intentAt.Some? ==> s.execs[j].intentAt != e.intentAt
    ensures forall t: nat, u :: Pending(s, t, u).Some? && (t != r || u != q) ==> Pending(s, t, u) != e.intentAt
  {
    if e.intentAt.Some? {
      forall t: nat, u | Pending(s, t, u).Some? && (t != r || u != q) ensures Pending(s, t, u) != e.intentAt {
        IntentIsOwn(sys, s, r, q, t, u);
      }
    }
  }

  lemma ParkKeeps(sys: System, s: State, r: nat, o: Outcome)
    requires Inv(sys, s) && Enabled(sys, s, Park(r, o))
    ensures Inv(sys, Next(sys, s, Park(r, o)))
  {
    var n := s.attempts[r].node;
    var s' := Next(sys, s, Park(r, o));
    assert AttemptOk(sys, s.log, s.attempts[r]);
    ExecutionOk(sys, s, r, [], o);
    assert forall q :: Pending(s', r, q).None?;
    IntentUnshared(sys, s, r, [] + [n.idx], ExecutionOf(sys, n, KeyAt(n, []), o));
    UsedIntent(sys, s, s', ExecutionOf(sys, n, KeyAt(n, []), o));
    InvKept(sys, s, s', r);
  }

  // ---- Record, Snapshot, Flush

  lemma RecordLog(sys: System, log: seq<Event>, a: Path, n: Node)
    requires LogOk(sys, log) && HasReturned(n) && FlightOk(sys, log, MemoOf(log), a + [n.idx], n)
    requires KeyAt(n, a) == Dotted(a + [n.idx]) && DueInv(sys, MemoOf(log), KeyAt(n, a)) == Some(n.inv)
    ensures var ev := Result(|log|, ResultRecord(sys.id, KeyAt(n, a), n.inv, n.stage.outcome));
            Fresh(log, ev) && LogOk(sys, log + [ev])
  {
    var rec := ResultRecord(sys.id, KeyAt(n, a), n.inv, n.stage.outcome);
    if !n.inv.idempotent {
      var i :| 0 <= i < |log| && log[i].Intent? && log[i].rpc == CallRecord(sys.id, KeyAt(n, a), n.inv);
      assert Announces(log[i].rpc, rec);
    }
    LogGrows(sys, log, Result(|log|, rec));
  }

  /** Other calls in flight are not answered by this record. */
  lemma RecordFlights(sys: System, log: seq<Event>, memo: map<string, RPCRecord>, n: Node, a: Path, f: Node, x: Node, ev: Event)
    requires FlightsOk(sys, log, memo, n) && NodeAt(n, a) == Some(f) && f.Flight? && ev.Result?
    requires ev.rpc.callKey == Dotted(a + [f.idx])
    requires forall q :: FlightAt(x, q).Some? ==> FlightOk(sys, log + [ev], memo[ev.rpc.callKey := ev.rpc], a + q, FlightAt(x, q).value)
    ensures FlightsOk(sys, log + [ev], memo[ev.rpc.callKey := ev.rpc], Put(n, a, x))
  {
    var memo' := memo[ev.rpc.callKey := ev.rpc];
    assert Prefix(a, a + [f.idx]);
    forall q | FlightAt(n, q).Some? && !Prefix(a, q)
      ensures FlightOk(sys, log + [ev], memo', q, FlightAt(n, q).value)
    {
      if Dotted(q) == ev.rpc.callKey { DottedInjective(q, a + [f.idx]); }
      FlightStays(sys, log, memo, q, FlightAt(n, q).value, ev, memo');
    }
    MoveFlights(sys, log + [ev], memo', n, a, x);
  }

  lemma RecordAttempt(sys: System, log: seq<Event>, at: Attempt, a: Path, n: Node, due: bool, dirty: bool)
    requires LogOk(sys, log) && AttemptOk(sys, log, at) && at.phase.Running? && at.view.memo == MemoOf(log)
    requires NodeAt(at.node, a) == Some(n) && HasReturned(n)
    requires FlightOk(sys, log, at.view.memo, a + [n.idx], n) && KeyAt(n, a) == Dotted(a + [n.idx])
    requires RefRun(sys.prog, [], 0, CtxOf(sys, at.base)).None?
    ensures var ev := Result(|log|, ResultRecord(sys.id, KeyAt(n, a), n.inv, n.stage.outcome));
            AttemptOk(sys, log + [ev], at.(view := Landed(log, ev).view, node := Put(at.node, a, AnsweredNode(sys, n, due)), dirty := dirty))
  {
    var x := AnsweredNode(sys, n, due);
    var rec := ResultRecord(sys.id, KeyAt(n, a), n.inv, n.stage.outcome);
    var ev := Result(|log|, rec);
    var memo' := MemoOf(log)[rec.callKey := rec];
    MemoSnoc(log, ev);
    forall c: Ctx | c.granted == sys.granted && Sub(memo', c.memo) ensures Continues(x, n, a, c) {
      assert rec.callKey in memo';
      RecordContinues(sys, memo', a, n, x, c);
    }
    MoveTracks(sys, MemoOf(log), memo', at.node, a, x);
    RecordFlights(sys, log, MemoOf(log), at.node, a, n, x, ev);
  }

  lemma RecordKeeps(sys: System, s: State, r: nat, a: Path, due: bool)
    requires Inv(sys, s) && Enabled(sys, s, Record(r, a, due))
    ensures Inv(sys, Next(sys, s, Record(r, a, due)))
  {
    var at, n := s.attempts[r], Leaf(s, r, a).value;
    LeafFacts(sys, s, r, a);
    RecordLog(sys, s.log, a, n);
    RecordAttempt(sys, s.log, at, a, n, due, at.dirty || Mutated(sys, n));
    WriteKeeps(sys, s, r, a, Result(0, ResultRecord(sys.id, KeyAt(n, a), n.inv, n.stage.outcome)), AnsweredNode(sys, n, due), at.dirty || Mutated(sys, n));
  }

  /** Barriers never disturb the log, nor an attempt that writes one. */
  lemma BarrierOk(sys: System, log: seq<Event>, at: Attempt, key: string, pos: nat)
    requires LogOk(sys, log) && AttemptOk(sys, log, at) && !at.phase.Waiting? && at.view.memo == MemoOf(log)
    ensures var ev := Barrier(|log|, key, pos);
            && LogOk(sys, log + [ev]) && Fresh(log, ev)
            && AttemptOk(sys, log + [ev], at.(view := Landed(log, ev).view, dirty := false))
  {
    var ev := Barrier(|log|, key, pos);
    LogGrows(sys, log, ev);
    MemoSnoc(log, ev);
    BystanderOk(sys, log, at, ev);
  }

  lemma ResumeAllowed(sys: System, log: seq<Event>, memo: map<string, RPCRecord>, a: Path, n: Node)
    requires AwaitsBarrier(n)
    ensures MoveOk(sys, log, memo, a, n, ResumedNode(n))
  {
  }

  lemma ResumeAttempt(sys: System, log: seq<Event>, at: Attempt, a: Path, n: Node, key: string, pos: nat)
    requires LogOk(sys, log) && AttemptOk(sys, log, at) && at.phase.Running? && at.view.memo == MemoOf(log)
    requires NodeAt(at.node, a) == Some(n) && AwaitsBarrier(n)
    requires RefRun(sys.prog, [], 0, CtxOf(sys, at.base)).None?
    ensures AttemptOk(sys, log + [Barrier(|log|, key, pos)],
              at.(view := Landed(log, Barrier(|log|, key, pos)).view, node := Put(at.node, a, ResumedNode(n)), dirty := false))
  {
    var ev := Barrier(|log|, key, pos);
    BarrierOk(sys, log, at, key, pos);
    MemoSnoc(log, ev);
    ResumeAllowed(sys, log + [ev], at.view.memo, a, n);
    AttemptMoves(sys, log + [ev], at.(view := Landed(log, ev).view, dirty := false), a, ResumedNode(n));
  }

  lemma SnapshotKeeps(sys: System, s: State, r: nat, a: Path, key: string)
    requires Inv(sys, s) && Enabled(sys, s, Snapshot(r, a, key))
    ensures Inv(sys, Next(sys, s, Snapshot(r, a, key)))
  {
    var at, n := s.attempts[r], Leaf(s, r, a).value;
    var pos := at.view.cursor;
    LeafFacts(sys, s, r, a);
    ResumeAttempt(sys, s.log, at, a, n, key, pos);
    BarrierOk(sys, s.log, at, key, pos);
    WriteKeeps(sys, s, r, a, Barrier(0, key, pos), ResumedNode(n), false);
  }

  lemma FlushKeeps(sys: System, s: State, r: nat, key: string)
    requires Inv(sys, s) && Enabled(sys, s, Flush(r, key))
    ensures Inv(sys, Next(sys, s, Flush(r, key)))
  {
    var at := s.attempts[r];
    BarrierOk(sys, s.log, at, key, at.view.cursor);
    HolderWrites(s, r, Barrier(0, key, at.view.cursor));
    CommitKeeps(sys, s, r, Barrier(|s.log|, key, at.view.cursor), at.node, false);
  }

  // ---- Read, Finish, and attempts coming and going

  lemma ReadKeeps(sys: System, s: State, r: nat)
    requires Inv(sys, s) && Enabled(sys, s, Read(r))
    ensures Inv(sys, Next(sys, s, Read(r)))
  {
    var s' := Next(sys, s, Read(r));
    SyncReachesEnd(EMPTY_VIEW, s.log, 0);
    assert s.log[0..] == s.log;
    FreshKidsHaveNoFlights(s'.attempts[r].node);
    IntentsKept(sys, s, s', r);
    InvKept(sys, s, s', r);
  }

  lemma FinishKeeps(sys: System, s: State, r: nat)
    requires Inv(sys, s) && Enabled(sys, s, Finish(r))
    ensures Inv(sys, Next(sys, s, Finish(r)))
  {
    var at := s.attempts[r];
    var mid := SetPhase(s, r, Over);
    assert AttemptOk(sys, s.log, at);
    IntentsKept(sys, s, mid, r);
    InvKept(sys, s, mid, r);
    FinishedOutput(sys, s, r);
    EndKeeps(sys, mid, at.node.prog.finish);
  }

  lemma FinishedOutput(sys: System, s: State, r: nat)
    requires Inv(sys, s) && Enabled(sys, s, Finish(r))
    ensures RefRun(sys.prog, [], 0, CtxOf(sys, MemoOf(s.log))) == Some(s.attempts[r].node.prog.finish)
    ensures RefRun(sys.prog, [], 0, CtxOf(sys, s.attempts[r].view.memo)) == Some(s.attempts[r].node.prog.finish)
  {
    var at := s.attempts[r];
    assert AttemptOk(sys, s.log, at);
    assert Continues(at.node, At(sys.prog, 0), [], CtxOf(sys, MemoOf(s.log)));
    assert Continues(at.node, At(sys.prog, 0), [], CtxOf(sys, at.view.memo));
  }

  lemma EndKeeps(sys: System, s: State, f: Finish)
    requires Inv(sys, s) && RefRun(sys.prog, [], 0, CtxOf(sys, MemoOf(s.log))) == Some(f)
    ensures Inv(sys, s.(outputs := s.outputs + [f]))
  {
    var s' := s.(outputs := s.outputs + [f]);
    assert forall r: nat, q :: Pending(s', r, q) == Pending(s, r, q);
  }

  lemma LeaveKeeps(sys: System, s: State, l: Label)
    requires Inv(sys, s) && (l.Release? || l.Crash? || l.Restart?) && Enabled(sys, s, l)
    ensures Inv(sys, Next(sys, s, l))
  {
    var s' := Next(sys, s, l);
    forall t: nat, q ensures Pending(s', t, q).None? || Pending(s', t, q) == Pending(s, t, q) {}
  }

  lemma AcquireKeeps(sys: System, s: State, r: nat, token: nat)
    requires Inv(sys, s) && Enabled(sys, s, Acquire(r, token))
    ensures Inv(sys, Next(sys, s, Acquire(r, token)))
  {
    var s' := Next(sys, s, Acquire(r, token));
    forall t: nat, q ensures Pending(s', t, q).None? || Pending(s', t, q) == Pending(s, t, q) {}
  }

  lemma StepKeeps(sys: System, s: State, l: Label)
    requires Inv(sys, s) && Enabled(sys, s, l)
    ensures Inv(sys, Next(sys, s, l))
  {
    match l
    case Acquire(r, token) => AcquireKeeps(sys, s, r, token);
    case Read(r) => ReadKeeps(sys, s, r);
    case Advance(r, a) => AdvanceKeeps(sys, s, r, a);
    case Announce(r, a) => AnnounceKeeps(sys, s, r, a);
    case Execute(r, a, o) => ExecuteKeeps(sys, s, r, a, o);
    case Record(r, a, due) => RecordKeeps(sys, s, r, a, due);
    case Snapshot(r, a, key) => SnapshotKeeps(sys, s, r, a, key);
    case Park(r, o) => ParkKeeps(sys, s, r, o);
    case Flush(r, key) => FlushKeeps(sys, s, r, key);
    case Finish(r) => FinishKeeps(sys, s, r);
    case Release(r) => LeaveKeeps(sys, s, l);
    case Crash(r) => LeaveKeeps(sys, s, l);
    case Restart => LeaveKeeps(sys, s, l);
  }

  /** The invariant holds after every history. */
  lemma {:induction false} PlayKeeps(sys: System, ls: seq<Label>)
    requires Legal(sys, ls)
    ensures Inv(sys, Play(sys, ls))
    decreases |ls|
  {
    if ls == [] {
      assert forall r: nat, q :: Pending(INITIAL, r, q).None?;
    } else {
      PlayKeeps(sys, ls[..|ls| - 1]);
      StepKeeps(sys, Play(sys, ls[..|ls| - 1]), ls[|ls| - 1]);
    }
  }
}
