/** When a recv strands a message, step by step; why that needs overlapping attempts; and why it
    cannot happen when every recv runs under the current lease. */
module DeliveryLeases {
  import opened Types
  import opened CallKeys
  import opened Logs
  import opened Scripts
  import opened Nodes
  import opened Replay
  import opened ReplayInv
  import opened Inboxes
  import opened Delivery
  import opened DeliveryOrder
  import ReplaySteps
  import ReplayTheorems

  /** The key owns a message with a value. */
  ghost predicate OwnsValue(rows: seq<Row>, ws: string, idemKey: string) {
    exists i :: 0 <= i < |rows| && Is(rows[i], ws, idemKey) && rows[i].data != NULL
  }

  /** A recv whose key is already answered is about to claim a value. */
  ghost predicate ClaimsTooLate(rows: seq<Row>, ws: string, id: string, memo: map<string, RPCRecord>, key: string) {
    key in memo && First(rows, ws, IdemKey(id, key)).None? && First(rows, ws, "").Some? && rows[First(rows, ws, "").value].data != NULL
  }

  /** The step claims a value for a recv that is already answered, or answers a recv with a
      timeout although a value has been claimed under its key. */
  ghost predicate Strands(f: Fleet, w: World, h: Happening, e: string)
    requires e in f.sites && CanHappen(f, w, h)
  {
    var site, s := f.sites[e], StateOf(w, e);
    && h.Engine? && h.e == e
    && ((Receives(f, w, h, e) && ClaimsTooLate(w.rows, site.workspace, site.sys.id, MemoOf(s.log), Ran(s, h.l).value.1))
        || (h.l.Record? && RecvAnswer(Recorded(site.sys, s, h.l)) && Recorded(site.sys, s, h.l).rpc.result == NULL
            && OwnsValue(w.rows, site.workspace, IdemKey(site.sys.id, Recorded(site.sys, s, h.l).rpc.callKey))))
  }

  // ---- A step strands a message exactly when ...

  lemma ClaimLosesIff(sys: System, rows: seq<Row>, ws: string, memo: map<string, RPCRecord>, q: Path)
    requires AnswersOwned(sys, rows, ws, memo) && DueRecv(sys, memo, q) && !Lost(rows, ws, sys.id, memo)
    ensures Lost(ClaimModel(rows, ws, IdemKey(sys.id, Dotted(q))).1, ws, sys.id, memo) <==> ClaimsTooLate(rows, ws, sys.id, memo, Dotted(q))
  {
    var idem := IdemKey(sys.id, Dotted(q));
    var rows' := ClaimModel(rows, ws, idem).1;
    if ClaimsTooLate(rows, ws, sys.id, memo, Dotted(q)) {
      AnsweredUnowned(sys, rows, ws, memo, q);
      assert LostRow(rows', ws, sys.id, memo, First(rows, ws, "").value, Dotted(q));
    }
    if Lost(rows', ws, sys.id, memo) {
      var i, key :| LostRow(rows', ws, sys.id, memo, i, key);
      assert !LostRow(rows, ws, sys.id, memo, i, key);
      IdemKeyCancels(sys.id, key, Dotted(q));
    }
  }

  lemma AnswerLosesIff(rows: seq<Row>, ws: string, id: string, memo: map<string, RPCRecord>, rec: RPCRecord)
    requires rec.callKey !in memo && !Lost(rows, ws, id, memo)
    ensures Lost(rows, ws, id, memo[rec.callKey := rec]) <==> rec.result == NULL && OwnsValue(rows, ws, IdemKey(id, rec.callKey))
  {
    var memo' := memo[rec.callKey := rec];
    if rec.result == NULL && OwnsValue(rows, ws, IdemKey(id, rec.callKey)) {
      var i :| 0 <= i < |rows| && Is(rows[i], ws, IdemKey(id, rec.callKey)) && rows[i].data != NULL;
      assert LostRow(rows, ws, id, memo', i, rec.callKey);
    }
    if Lost(rows, ws, id, memo') {
      var i, key :| LostRow(rows, ws, id, memo', i, key);
      assert !LostRow(rows, ws, id, memo, i, key);
      assert Is(rows[i], ws, IdemKey(id, key));
    }
  }

  lemma UntouchedLosesNothing(rows: seq<Row>, rows': seq<Row>, ws: string, id: string, memo: map<string, RPCRecord>)
    requires Untouched(rows, rows', ws)
    ensures Lost(rows', ws, id, memo) ==> Lost(rows, ws, id, memo)
  {
    if Lost(rows', ws, id, memo) {
      var i, key :| LostRow(rows', ws, id, memo, i, key);
      assert i < |rows| ==> RowStays(rows, rows', i);
      assert LostRow(rows, ws, id, memo, i, key);
    }
  }

  lemma NotRecvOwnsNothing(sys: System, rows: seq<Row>, ws: string, memo: map<string, RPCRecord>, q: Path)
    requires OwnersDue(sys, rows, ws, memo) && !DueRecv(sys, memo, q)
    ensures !OwnsValue(rows, ws, IdemKey(sys.id, Dotted(q)))
  {
    forall i | 0 <= i < |rows| && rows[i].workspace == ws && rows[i].consumedBy != "" ensures rows[i].consumedBy != IdemKey(sys.id, Dotted(q)) {
      assert OwnerDue(sys, rows[i], memo);
      var u: Path :| rows[i].consumedBy == IdemKey(sys.id, Dotted(u)) && DueRecv(sys, memo, u);
      if rows[i].consumedBy == IdemKey(sys.id, Dotted(q)) { IdemKeyInjective(sys.id, u, sys.id, q); }
    }
  }

  lemma ReceiveStrandsIff(f: Fleet, hs: seq<Happening>, h: Happening, e: string)
    requires Lawful(f, hs) && CanHappen(f, WorldAfter(f, hs), h) && SoleActor(f, e) && Receives(f, WorldAfter(f, hs), h, e)
    requires !LostIn(f, WorldAfter(f, hs), e)
    ensures LostIn(f, WorldNext(f, WorldAfter(f, hs), h), e) <==> Strands(f, WorldAfter(f, hs), h, e)
  {
    var w, site := WorldAfter(f, hs), f.sites[e];
    var s := StateOf(w, e);
    var q := ReceiveParts(f, hs, h, e);
    AnswersAreOwned(f, hs, e);
    ClaimLosesIff(site.sys, w.rows, site.workspace, MemoOf(s.log), q);
  }

  lemma RecordStrandsIff(f: Fleet, hs: seq<Happening>, e: string)
    requires Lawful(f, hs) && hs != [] && SoleActor(f, e)
    requires var h := hs[|hs| - 1]; h.Engine? && h.e == e && h.l.Record?
    requires !LostIn(f, WorldAfter(f, hs[..|hs| - 1]), e)
    ensures LostIn(f, WorldAfter(f, hs), e) <==> Strands(f, WorldAfter(f, hs[..|hs| - 1]), hs[|hs| - 1], e)
  {
    var w, h, site := WorldAfter(f, hs[..|hs| - 1]), hs[|hs| - 1], f.sites[e];
    var s := StateOf(w, e);
    var q, ev, inv := RecordParts(f, hs, e);
    AlwaysDue(f, hs[..|hs| - 1], e);
    MemoSnoc(s.log, ev);
    AnswerLosesIff(w.rows, site.workspace, site.sys.id, MemoOf(s.log), ev.rpc);
    if !RecvAnswer(ev) { NotRecvOwnsNothing(site.sys, w.rows, site.workspace, MemoOf(s.log), q); }
  }

  lemma OtherStrandsNothing(f: Fleet, hs: seq<Happening>, h: Happening, e: string)
    requires Lawful(f, hs) && CanHappen(f, WorldAfter(f, hs), h) && SoleActor(f, e) && !Receives(f, WorldAfter(f, hs), h, e)
    requires !(h.Engine? && h.e == e && h.l.Record?) && !LostIn(f, WorldAfter(f, hs), e)
    ensures !LostIn(f, WorldNext(f, WorldAfter(f, hs), h), e)
  {
    var w, site := WorldAfter(f, hs), f.sites[e];
    OwnInv(f, hs, e);
    ThenParts(f, w, h, e);
    OthersLeaveAlone(f, w, h, e);
    UntouchedLosesNothing(w.rows, RowsNext(f, w, h), site.workspace, site.sys.id, MemoOf(StateOf(w, e).log));
    if h.Engine? && h.e == e { MemoNext(site.sys, StateOf(w, e), h.l); }
  }

  lemma StepStrandsIff(f: Fleet, hs: seq<Happening>, e: string)
    requires Lawful(f, hs) && hs != [] && SoleActor(f, e) && !LostIn(f, WorldAfter(f, hs[..|hs| - 1]), e)
    ensures LostIn(f, WorldAfter(f, hs), e) <==> Strands(f, WorldAfter(f, hs[..|hs| - 1]), hs[|hs| - 1], e)
  {
    var init, h := hs[..|hs| - 1], hs[|hs| - 1];
    if Receives(f, WorldAfter(f, init), h, e) {
      ReceiveStrandsIff(f, init, h, e);
    } else if h.Engine? && h.e == e && h.l.Record? {
      RecordStrandsIff(f, hs, e);
    } else {
      OtherStrandsNothing(f, init, h, e);
    }
  }

  /** Some step of the history strands a message. */
  ghost predicate EverStrands(f: Fleet, hs: seq<Happening>, e: string)
    requires Lawful(f, hs) && e in f.sites
    decreases |hs|
  {
    hs != [] && (EverStrands(f, hs[..|hs| - 1], e) || Strands(f, WorldAfter(f, hs[..|hs| - 1]), hs[|hs| - 1], e))
  }

  lemma {:induction false} LostIffStranded(f: Fleet, hs: seq<Happening>, e: string)
    requires Lawful(f, hs) && SoleActor(f, e)
    ensures LostIn(f, WorldAfter(f, hs), e) <==> EverStrands(f, hs, e)
  {
    if hs != [] {
      LostIffStranded(f, hs[..|hs| - 1], e);
      LostForGood(f, hs, e);
      if !LostIn(f, WorldAfter(f, hs[..|hs| - 1]), e) { StepStrandsIff(f, hs, e); }
    }
  }

  /** Messages are received in order and without a gap exactly when no step of the history
      claims a value for a recv already answered, or answers a recv with a timeout although a
      value has been claimed under its key. */
  lemma InOrderIffNoStepStrands(f: Fleet, hs: seq<Happening>, e: string)
    requires Lawful(f, hs) && SoleActor(f, e)
    ensures OrderIn(f, WorldAfter(f, hs), e) <==> !EverStrands(f, hs, e)
  {
    MessagesInOrderIff(f, hs, e);
    LostIffStranded(f, hs, e);
  }

  // ---- Under the lease nothing is stranded

  /** Every recv of the actor ran while its attempt held the current lease. */
  ghost predicate Leased(f: Fleet, hs: seq<Happening>, e: string)
    requires Lawful(f, hs) && e in f.sites
    decreases |hs|
  {
    hs == [] ||
      (Leased(f, hs[..|hs| - 1], e)
       && (Receives(f, WorldAfter(f, hs[..|hs| - 1]), hs[|hs| - 1], e) ==> Holds(StateOf(WorldAfter(f, hs[..|hs| - 1]), e), hs[|hs| - 1].l.r)))
  }

  /** The lease holder's call in flight at `q` has come back, not recorded yet. */
  ghost predicate HolderReturned(s: State, r: nat, q: Path) {
    Holds(s, r) && Active(s, r) && FlightAt(s.attempts[r].node, q).Some? && FlightAt(s.attempts[r].node, q).value.stage.Returned?
  }

  ghost function ReturnedCall(s: State, r: nat, q: Path): Node
    requires HolderReturned(s, r, q)
  {
    FlightAt(s.attempts[r].node, q).value
  }

  lemma PutReturned(n: Node, a: Path, x: Node, q: Path)
    requires NodeAt(n, a).Some? && FlightAt(Put(n, a, x), q).Some? && FlightAt(Put(n, a, x), q).value.stage.Returned?
    requires x.Flight? || NoFlights(x)
    ensures FlightAt(n, q) == FlightAt(Put(n, a, x), q)
            || (x.Flight? && q == a + [x.idx] && FlightAt(Put(n, a, x), q) == Some(x))
  {
    FlightInPut(n, a, x, q);
    if Prefix(a, q) {
      assert FlightAt(x, q[|a|..]).Some?;
      assert q == a + q[|a|..];
    }
  }

  /** A returned call of the holder was there before, unless the step is its own execution. */
  lemma ReturnedComesFrom(sys: System, s: State, l: Label, r: nat, q: Path)
    requires Inv(sys, s) && Enabled(sys, s, l) && HolderReturned(Next(sys, s, l), r, q)
    ensures (HolderReturned(s, r, q) && ReturnedCall(s, r, q) == ReturnedCall(Next(sys, s, l), r, q))
            || (l.Execute? && l.r == r && Holds(s, r) && q == l.a + [Leaf(s, r, l.a).value.idx]
                && ReturnedCall(Next(sys, s, l), r, q) == Leaf(s, r, l.a).value.(stage := Returned(l.outcome)))
  {
    if l.Restart? || l.r != r {
      OthersReturned(sys, s, l, r, q);
    } else if l.Advance? {
      AdvanceReturned(sys, s, r, l.a, q);
    } else if l.Announce? || l.Record? || l.Snapshot? || l.Execute? {
      LeafReturned(sys, s, l, r, q);
    } else {
      PhaseReturned(sys, s, l, r, q);
    }
  }

  lemma OthersReturned(sys: System, s: State, l: Label, r: nat, q: Path)
    requires TokensOk(s) && Enabled(sys, s, l) && HolderReturned(Next(sys, s, l), r, q) && (l.Restart? || l.r != r)
    ensures HolderReturned(s, r, q) && ReturnedCall(s, r, q) == ReturnedCall(Next(sys, s, l), r, q)
  {
    assert !l.Restart?;
    assert Next(sys, s, l).attempts[r] == s.attempts[r];
  }

  lemma PhaseReturned(sys: System, s: State, l: Label, r: nat, q: Path)
    requires Inv(sys, s) && Enabled(sys, s, l)
    requires l.Acquire? || l.Read? || l.Park? || l.Flush? || l.Finish? || l.Release? || l.Crash?
    requires l.r == r
    ensures !HolderReturned(Next(sys, s, l), r, q)
  {
    if l.Read? { FreshKidsHaveNoFlights(s.attempts[r].node); }
  }

  /** Replacing a node by one without a returned call. */
  lemma MoveReturned(s: State, r: nat, a: Path, x: Node, q: Path)
    requires Leaf(s, r, a).Some? && HolderReturned(Move(s, r, a, x), r, q)
    requires if x.Flight? then x.stage.Missed? else NoFlights(x)
    ensures HolderReturned(s, r, q) && ReturnedCall(s, r, q) == ReturnedCall(Move(s, r, a, x), r, q)
  {
    PutReturned(s.attempts[r].node, a, x, q);
  }

  lemma AdvanceReturned(sys: System, s: State, r: nat, a: Path, q: Path)
    requires Inv(sys, s) && Enabled(sys, s, Advance(r, a)) && HolderReturned(Next(sys, s, Advance(r, a)), r, q)
    ensures HolderReturned(s, r, q) && ReturnedCall(s, r, q) == ReturnedCall(Next(sys, s, Advance(r, a)), r, q)
  {
    var n := Leaf(s, r, a).value;
    ReplaySteps.AdvanceMoves(sys, s, r, a);
    AdvancedShape(sys, n, KeyAt(n, a), s.attempts[r].view.memo);
    MoveReturned(s, r, a, Advanced(sys, n, KeyAt(n, a), s.attempts[r].view.memo), q);
  }

  /** The node a step puts in place of a call in flight. */
  ghost function Replacement(sys: System, s: State, l: Label): Node
    requires (l.Announce? || l.Record? || l.Snapshot? || l.Execute?) && Enabled(sys, s, l)
  {
    var n := Leaf(s, l.r, l.a).value;
    match l
    case Announce(_, _) => n.(stage := Announced(|s.log|))
    case Record(_, _, due) => AnsweredNode(sys, n, due)
    case Snapshot(_, _, _) => ResumedNode(n)
    case Execute(_, _, o) => n.(stage := Returned(o))
  }

  lemma LeafReturned(sys: System, s: State, l: Label, r: nat, q: Path)
    requires Inv(sys, s) && (l.Announce? || l.Record? || l.Snapshot? || l.Execute?) && l.r == r && Enabled(sys, s, l)
    requires HolderReturned(Next(sys, s, l), r, q)
    ensures (HolderReturned(s, r, q) && ReturnedCall(s, r, q) == ReturnedCall(Next(sys, s, l), r, q))
            || (l.Execute? && Holds(s, r) && q == l.a + [Leaf(s, r, l.a).value.idx]
                && ReturnedCall(Next(sys, s, l), r, q) == Leaf(s, r, l.a).value.(stage := Returned(l.outcome)))
  {
    var x := Replacement(sys, s, l);
    assert Next(sys, s, l).attempts[r].node == Put(s.attempts[r].node, l.a, x);
    PutReturned(s.attempts[r].node, l.a, x, q);
  }

  /** What a returned recv would record agrees with what its key owns. */
  ghost predicate HolderAgrees(f: Fleet, w: World, e: string)
    requires e in f.sites
  {
    forall r: nat, q: Path :: TimedOut(StateOf(w, e), r, q) ==> !OwnsValue(w.rows, f.sites[e].workspace, IdemKey(f.sites[e].sys.id, Dotted(q)))
  }

  ghost predicate TimedOut(s: State, r: nat, q: Path) {
    HolderReturned(s, r, q) && IsRecv(ReturnedCall(s, r, q).inv) && ReturnedCall(s, r, q).stage.outcome == Success(NULL)
  }

  /** Claiming for one key gives no other key a value. */
  lemma ClaimForOneKey(rows: seq<Row>, ws: string, key: string, other: string)
    requires other != "" && other != key
    ensures OwnsValue(ClaimModel(rows, ws, key).1, ws, other) ==> OwnsValue(rows, ws, other)
  {
    var rows' := ClaimModel(rows, ws, key).1;
    if OwnsValue(rows', ws, other) {
      var i :| 0 <= i < |rows'| && Is(rows'[i], ws, other) && rows'[i].data != NULL;
      assert Is(rows[i], ws, other);
    }
  }

  /** A recv that comes back with null owns no value. */
  lemma NullOwnsNoValue(rows: seq<Row>, ws: string, key: string, deadline: int, now: int)
    requires Fifo(rows, ws) && key != "" && RecvModel(rows, ws, key, deadline, now).0 == Success(NULL)
    ensures !OwnsValue(RecvModel(rows, ws, key, deadline, now).1, ws, key)
  {
    ClaimIsTake(rows, ws, key);
    var rows' := ClaimModel(rows, ws, key).1;
    if ClaimModel(rows, ws, key).0.Some? {
      ClaimOwns(rows, ws, key);
      var j :| 0 <= j < |rows'| && Is(rows'[j], ws, key) && rows'[j].data == ClaimModel(rows, ws, key).0.value;
      assert forall i :: 0 <= i < |rows'| && Is(rows'[i], ws, key) ==> i == j;
    } else {
      assert forall i :: 0 <= i < |rows| ==> !Is(rows[i], ws, key);
    }
  }

  lemma UntouchedOwnsNoMore(rows: seq<Row>, rows': seq<Row>, ws: string, key: string)
    requires Untouched(rows, rows', ws) && key != ""
    ensures OwnsValue(rows', ws, key) ==> OwnsValue(rows, ws, key)
  {
    if OwnsValue(rows', ws, key) {
      var i :| 0 <= i < |rows'| && Is(rows'[i], ws, key) && rows'[i].data != NULL;
      assert i < |rows| && RowStays(rows, rows', i) && Is(rows[i], ws, key);
    }
  }

  lemma LeasedStepAgrees(f: Fleet, hs: seq<Happening>, h: Happening, e: string)
    requires Lawful(f, hs) && CanHappen(f, WorldAfter(f, hs), h) && SoleActor(f, e) && HolderAgrees(f, WorldAfter(f, hs), e)
    requires Receives(f, WorldAfter(f, hs), h, e) ==> Holds(StateOf(WorldAfter(f, hs), e), h.l.r)
    ensures HolderAgrees(f, WorldNext(f, WorldAfter(f, hs), h), e)
  {
    var w, w', site := WorldAfter(f, hs), WorldNext(f, WorldAfter(f, hs), h), f.sites[e];
    var ws, id := site.workspace, site.sys.id;
    forall r: nat, q: Path | TimedOut(StateOf(w', e), r, q) ensures !OwnsValue(w'.rows, ws, IdemKey(id, Dotted(q))) {
      if Receives(f, w, h, e) {
        LeasedReceiveAgrees(f, hs, h, e, r, q);
      } else {
        OtherStepAgrees(f, hs, h, e, r, q);
      }
    }
  }

  /** A step that runs no recv of the actor lets none come back. */
  lemma TimedOutEarlier(f: Fleet, hs: seq<Happening>, h: Happening, e: string, r: nat, q: Path)
    requires Lawful(f, hs) && CanHappen(f, WorldAfter(f, hs), h) && SoleActor(f, e) && !Receives(f, WorldAfter(f, hs), h, e)
    requires TimedOut(StateOf(WorldNext(f, WorldAfter(f, hs), h), e), r, q)
    ensures TimedOut(StateOf(WorldAfter(f, hs), e), r, q)
  {
    var w := WorldAfter(f, hs);
    OwnInv(f, hs, e);
    ThenParts(f, w, h, e);
    if h.Engine? && h.e == e { ReturnedComesFrom(f.sites[e].sys, StateOf(w, e), h.l, r, q); }
  }

  lemma OtherStepAgrees(f: Fleet, hs: seq<Happening>, h: Happening, e: string, r: nat, q: Path)
    requires Lawful(f, hs) && CanHappen(f, WorldAfter(f, hs), h) && SoleActor(f, e) && HolderAgrees(f, WorldAfter(f, hs), e)
    requires !Receives(f, WorldAfter(f, hs), h, e)
    requires TimedOut(StateOf(WorldNext(f, WorldAfter(f, hs), h), e), r, q)
    ensures !OwnsValue(WorldNext(f, WorldAfter(f, hs), h).rows, f.sites[e].workspace, IdemKey(f.sites[e].sys.id, Dotted(q)))
  {
    var w, site := WorldAfter(f, hs), f.sites[e];
    TimedOutEarlier(f, hs, h, e, r, q);
    OthersLeaveAlone(f, w, h, e);
    UntouchedOwnsNoMore(w.rows, RowsNext(f, w, h), site.workspace, IdemKey(site.sys.id, Dotted(q)));
  }

  lemma LeasedReceiveAgrees(f: Fleet, hs: seq<Happening>, h: Happening, e: string, r: nat, q: Path)
    requires Lawful(f, hs) && CanHappen(f, WorldAfter(f, hs), h) && SoleActor(f, e) && HolderAgrees(f, WorldAfter(f, hs), e)
    requires Receives(f, WorldAfter(f, hs), h, e) && Holds(StateOf(WorldAfter(f, hs), e), h.l.r)
    requires TimedOut(StateOf(WorldNext(f, WorldAfter(f, hs), h), e), r, q)
    ensures !OwnsValue(WorldNext(f, WorldAfter(f, hs), h).rows, f.sites[e].workspace, IdemKey(f.sites[e].sys.id, Dotted(q)))
  {
    var w, site := WorldAfter(f, hs), f.sites[e];
    var u := ReceiveParts(f, hs, h, e);
    TimedOutBefore(f, hs, h, e, r, q);
    if q == u {
      AlwaysFifo(f, hs, site.workspace);
      NullOwnsNoValue(w.rows, site.workspace, IdemKey(site.sys.id, Dotted(q)), f.codec.deadline(Ran(StateOf(w, e), h.l).value.0.args), h.now);
    } else {
      if IdemKey(site.sys.id, Dotted(u)) == IdemKey(site.sys.id, Dotted(q)) { IdemKeyInjective(site.sys.id, u, site.sys.id, q); }
      if Dotted(u) == Dotted(q) { DottedInjective(u, q); }
      ClaimForOneKey(w.rows, site.workspace, IdemKey(site.sys.id, Dotted(u)), IdemKey(site.sys.id, Dotted(q)));
    }
  }

  /** A recv of the holder that has come back with null did so in this step or before. */
  lemma TimedOutBefore(f: Fleet, hs: seq<Happening>, h: Happening, e: string, r: nat, q: Path)
    requires Lawful(f, hs) && CanHappen(f, WorldAfter(f, hs), h) && SoleActor(f, e)
    requires Receives(f, WorldAfter(f, hs), h, e) && Holds(StateOf(WorldAfter(f, hs), e), h.l.r)
    requires TimedOut(StateOf(WorldNext(f, WorldAfter(f, hs), h), e), r, q)
    ensures var w, site := WorldAfter(f, hs), f.sites[e]; var (inv, key) := Ran(StateOf(w, e), h.l).value;
            if key == Dotted(q) then
              RecvModel(w.rows, site.workspace, IdemKey(site.sys.id, key), f.codec.deadline(inv.args), h.now).0 == Success(NULL)
            else TimedOut(StateOf(w, e), r, q)
  {
    var w, site := WorldAfter(f, hs), f.sites[e];
    var s := StateOf(w, e);
    OwnInv(f, hs, e);
    ThenParts(f, w, h, e);
    ReturnedComesFrom(site.sys, s, h.l, r, q);
    ExecutedCall(s, h.l);
    ExecutingIsNotReturned(s, h.l.r, ExecutedPath(s, h.l), r);
    if Ran(s, h.l).value.1 == Dotted(q) { DottedInjective(q, ExecutedPath(s, h.l)); }
  }

  ghost function ExecutedPath(s: State, l: Label): Path
    requires Ran(s, l).Some?
  {
    var a := if l.Execute? then l.a else [];
    a + [Leaf(s, l.r, a).value.idx]
  }

  lemma ExecutedCall(s: State, l: Label)
    requires Ran(s, l).Some?
    ensures var q := ExecutedPath(s, l);
            && Ran(s, l).value.1 == Dotted(q)
            && FlightAt(s.attempts[l.r].node, q) == Leaf(s, l.r, if l.Execute? then l.a else [])
  {
    ReplaySteps.LeafFlight(s.attempts[l.r].node, if l.Execute? then l.a else []);
  }

  /** The call the lease holder is executing has not come back. */
  lemma ExecutingIsNotReturned(s: State, t: nat, q: Path, r: nat)
    requires TokensOk(s) && Holds(s, t) && FlightAt(s.attempts[t].node, q).Some? && !FlightAt(s.attempts[t].node, q).value.stage.Returned?
    ensures !HolderReturned(s, r, q)
  {
  }

  lemma {:induction false} LeasedAgrees(f: Fleet, hs: seq<Happening>, e: string)
    requires Lawful(f, hs) && SoleActor(f, e) && Leased(f, hs, e)
    ensures HolderAgrees(f, WorldAfter(f, hs), e)
  {
    if hs != [] {
      LeasedAgrees(f, hs[..|hs| - 1], e);
      LeasedStepAgrees(f, hs[..|hs| - 1], hs[|hs| - 1], e);
    }
  }

  lemma LeasedClaimsInTime(f: Fleet, hs: seq<Happening>, h: Happening, e: string)
    requires Lawful(f, hs) && CanHappen(f, WorldAfter(f, hs), h) && SoleActor(f, e)
    requires Receives(f, WorldAfter(f, hs), h, e) && Holds(StateOf(WorldAfter(f, hs), e), h.l.r)
    ensures !Strands(f, WorldAfter(f, hs), h, e)
  {
    var s, sys := StateOf(WorldAfter(f, hs), e), f.sites[e].sys;
    OwnInv(f, hs, e);
    ReplaySteps.LeafFacts(sys, s, h.l.r, if h.l.Execute? then h.l.a else []);
  }

  lemma LeasedRecordsAll(f: Fleet, hs: seq<Happening>, h: Happening, e: string)
    requires Lawful(f, hs) && CanHappen(f, WorldAfter(f, hs), h) && SoleActor(f, e) && HolderAgrees(f, WorldAfter(f, hs), e)
    requires h.Engine? && h.e == e && h.l.Record?
    ensures !Strands(f, WorldAfter(f, hs), h, e)
  {
    RecordsTimeout(f.sites[e].sys, StateOf(WorldAfter(f, hs), e), h.l);
  }

  /** A null recorded for a recv is what its returned call came back with. */
  lemma RecordsTimeout(sys: System, s: State, l: Label)
    requires l.Record? && Enabled(sys, s, l)
    ensures var ev, q := Recorded(sys, s, l), l.a + [Leaf(s, l.r, l.a).value.idx];
            ev.rpc.callKey == Dotted(q) && (RecvAnswer(ev) && ev.rpc.result == NULL ==> TimedOut(s, l.r, q))
  {
    ReplaySteps.LeafFlight(s.attempts[l.r].node, l.a);
  }

  lemma {:induction false} LeasedNeverStrands(f: Fleet, hs: seq<Happening>, e: string)
    requires Lawful(f, hs) && SoleActor(f, e) && Leased(f, hs, e)
    ensures !EverStrands(f, hs, e)
  {
    if hs != [] {
      var init, h := hs[..|hs| - 1], hs[|hs| - 1];
      LeasedNeverStrands(f, init, e);
      LeasedAgrees(f, init, e);
      if Receives(f, WorldAfter(f, init), h, e) {
        LeasedClaimsInTime(f, init, h, e);
      } else if h.Engine? && h.e == e && h.l.Record? {
        LeasedRecordsAll(f, init, h, e);
      }
    }
  }

  /** Where every recv runs under the current lease, the recorded messages are a prefix of the
      messages sent, whatever crashes in between. */
  lemma LeasedReceivesInOrder(f: Fleet, hs: seq<Happening>, e: string)
    requires Lawful(f, hs) && SoleActor(f, e) && Leased(f, hs, e)
    ensures OrderIn(f, WorldAfter(f, hs), e)
    ensures Answers(StateOf(WorldAfter(f, hs), e).log) <= NonNull(Sent(WorldAfter(f, hs).rows, f.sites[e].workspace))
  {
    LeasedNeverStrands(f, hs, e);
    InOrderIffNoStepStrands(f, hs, e);
    MessagesInOrderIff(f, hs, e);
  }

  // ---- One attempt at a time

  /** No attempt of `e` starts while another one is still there. */
  ghost predicate OneAtATime(f: Fleet, hs: seq<Happening>, e: string)
    requires Lawful(f, hs) && e in f.sites
    decreases |hs|
  {
    hs == [] ||
      (OneAtATime(f, hs[..|hs| - 1], e)
       && (hs[|hs| - 1].Engine? && hs[|hs| - 1].e == e && hs[|hs| - 1].l.Acquire? ==> StateOf(WorldAfter(f, hs[..|hs| - 1]), e).attempts == map[]))
  }

  ghost predicate OnlyHolder(s: State) {
    forall r :: r in s.attempts ==> Holds(s, r)
  }

  lemma StepKeepsOnlyHolder(sys: System, s: State, l: Label)
    requires Enabled(sys, s, l) && OnlyHolder(s) && TokensOk(s) && (l.Acquire? ==> s.attempts == map[])
    ensures OnlyHolder(Next(sys, s, l))
  {
    if l.Acquire? || l.Restart? || l.Crash? || l.Release? {
      ComingAndGoing(sys, s, l);
    } else {
      ReplayTheorems.SameTokens(sys, s, l);
    }
  }

  lemma ComingAndGoing(sys: System, s: State, l: Label)
    requires Enabled(sys, s, l) && OnlyHolder(s) && TokensOk(s) && (l.Acquire? ==> s.attempts == map[])
    requires l.Acquire? || l.Restart? || l.Crash? || l.Release?
    ensures OnlyHolder(Next(sys, s, l))
  {
    var s' := Next(sys, s, l);
    match l
    case Restart => assert s'.attempts.Keys == {};
    case Release(r) => assert forall t :: t in s'.attempts ==> t in s.attempts && t != r && s.attempts[t].token != s.attempts[r].token;
    case _ =>
  }

  lemma {:induction false} OneAtATimeIsLeased(f: Fleet, hs: seq<Happening>, e: string)
    requires Lawful(f, hs) && e in f.sites && OneAtATime(f, hs, e)
    ensures OnlyHolder(StateOf(WorldAfter(f, hs), e)) && Leased(f, hs, e)
  {
    if hs != [] {
      var init, h := hs[..|hs| - 1], hs[|hs| - 1];
      OneAtATimeIsLeased(f, init, e);
      OwnInv(f, init, e);
      ThenParts(f, WorldAfter(f, init), h, e);
      if h.Engine? && h.e == e { StepKeepsOnlyHolder(f.sites[e].sys, StateOf(WorldAfter(f, init), e), h.l); }
    }
  }

  /** Attempts that crash or park and are retried one after the other receive every message once
      and in order. */
  lemma RetriesReceiveInOrder(f: Fleet, hs: seq<Happening>, e: string)
    requires Lawful(f, hs) && SoleActor(f, e) && OneAtATime(f, hs, e)
    ensures OrderIn(f, WorldAfter(f, hs), e)
    ensures Answers(StateOf(WorldAfter(f, hs), e).log) <= NonNull(Sent(WorldAfter(f, hs).rows, f.sites[e].workspace))
  {
    OneAtATimeIsLeased(f, hs, e);
    LeasedReceivesInOrder(f, hs, e);
  }
}
