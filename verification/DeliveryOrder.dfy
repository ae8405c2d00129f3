/** One sequential execution that owns its workspace: whatever happens, its recorded messages come
    in order of arrival; and none is skipped, exactly when no recv records a timeout while owning a
    message. */
module DeliveryOrder {
  import opened Types
  import opened CallKeys
  import opened Logs
  import opened Scripts
  import opened Nodes
  import opened Replay
  import opened ReplayInv
  import opened Inboxes
  import opened Delivery
  import ReplayTheorems
  import ReplaySteps

  /** `e` forks no branches, and nobody else receives from its workspace. */
  ghost predicate SoleActor(f: Fleet, e: string) {
    && e in f.sites && f.sites[e].sys.id == e && Sequential(f.sites[e].sys.prog)
    && forall d :: d in f.sites && d != e ==> f.sites[d].workspace != f.sites[e].workspace
  }

  /** A sequential script has at most one call waiting for an answer. */
  lemma {:induction false} FrontierUnique(p: Prog, path: Path, ctr: nat, c: Ctx, q: Path, u: Path)
    requires Sequential(p)
    requires InvAt(p, path, ctr, c, q).Some? && InvAt(p, path, ctr, c, q).value.capability in c.granted && Dotted(path + q) !in c.memo
    requires InvAt(p, path, ctr, c, u).Some? && InvAt(p, path, ctr, c, u).value.capability in c.granted && Dotted(path + u) !in c.memo
    ensures q == u
    decreases p
  {
    match p
    case Call(inv, rest) =>
      assert q[0] == ctr ==> q == [ctr];
      assert u[0] == ctr ==> u == [ctr];
      if q[0] != ctr && u[0] != ctr {
        var r := if inv.capability !in c.granted then NotGranted(inv) else Replayed(inv, c.memo[Dotted(path + [ctr])]);
        FrontierUnique(rest[r], path, ctr + 1, c, q, u);
      }
  }

  // ---- Selecting messages from the table

  ghost function Pick(rows: seq<Row>, sel: Row -> bool): seq<string> {
    if rows == [] then [] else
      var n := |rows| - 1;
      Pick(rows[..n], sel) + if sel(rows[n]) then [rows[n].data] else []
  }

  ghost predicate SameChoice(r: Row, sel: Row -> bool, r': Row, sel': Row -> bool) {
    (sel(r) <==> sel'(r')) && (sel(r) ==> r.data == r'.data)
  }

  lemma {:induction false} PickSame(rows: seq<Row>, sel: Row -> bool, rows': seq<Row>, sel': Row -> bool)
    requires |rows| == |rows'| && forall i :: 0 <= i < |rows| ==> SameChoice(rows[i], sel, rows'[i], sel')
    ensures Pick(rows, sel) == Pick(rows', sel')
  {
    if rows != [] {
      var n := |rows| - 1;
      assert SameChoice(rows[n], sel, rows'[n], sel');
      PickSame(rows[..n], sel, rows'[..n], sel');
    }
  }

  lemma {:induction false} PickMore(rows: seq<Row>, more: seq<Row>, sel: Row -> bool)
    requires forall i :: 0 <= i < |more| ==> !sel(more[i])
    ensures Pick(rows + more, sel) == Pick(rows, sel)
  {
    if more == [] {
      assert rows + more == rows;
    } else {
      PickMore(rows, more[..|more| - 1], sel);
      assert (rows + more)[..|rows + more| - 1] == rows + more[..|more| - 1];
    }
  }

  /** Row `j` joins the selection behind all selected rows. */
  lemma {:induction false} PickOneMore(rows: seq<Row>, sel: Row -> bool, rows': seq<Row>, sel': Row -> bool, j: nat)
    requires j < |rows| == |rows'| && !sel(rows[j]) && sel'(rows'[j])
    requires forall i :: 0 <= i < |rows| && i != j ==> SameChoice(rows[i], sel, rows'[i], sel')
    requires forall i :: j < i < |rows| ==> !sel(rows[i])
    ensures Pick(rows', sel') == Pick(rows, sel) + [rows'[j].data]
  {
    var n := |rows| - 1;
    if j == n {
      PickSame(rows[..n], sel, rows'[..n], sel');
    } else {
      assert SameChoice(rows[n], sel, rows'[n], sel');
      PickOneMore(rows[..n], sel, rows'[..n], sel', j);
    }
  }

  lemma {:induction false} PickNone(rows: seq<Row>, sel: Row -> bool)
    requires forall i :: 0 <= i < |rows| ==> !sel(rows[i])
    ensures Pick(rows, sel) == []
  {
    if rows != [] { PickNone(rows[..|rows| - 1], sel); }
  }

  // ---- Order

  /** Messages are values; "null" stands for no message, like a timeout. */
  ghost function NonNull(xs: seq<string>): seq<string> {
    if xs == [] then [] else NonNull(xs[..|xs| - 1]) + if xs[|xs| - 1] != NULL then [xs[|xs| - 1]] else []
  }

  /** The values recorded as results of recv, in log order. */
  ghost function Answers(log: seq<Event>): seq<string> {
    if log == [] then [] else
      var ev := log[|log| - 1];
      Answers(log[..|log| - 1]) + if RecvAnswer(ev) && ev.rpc.result != NULL then [ev.rpc.result] else []
  }

  ghost predicate HasAnswer(id: string, memo: map<string, RPCRecord>, owner: string) {
    exists key :: key in memo && owner == IdemKey(id, key)
  }

  ghost predicate Taken(ws: string, r: Row) {
    r.workspace == ws && r.consumedBy != "" && r.data != NULL
  }

  ghost function Consumed(ws: string): Row -> bool {
    (r: Row) => Taken(ws, r)
  }

  ghost function Open(ws: string, id: string, memo: map<string, RPCRecord>): Row -> bool {
    (r: Row) => Taken(ws, r) && !HasAnswer(id, memo, r.consumedBy)
  }

  /** The consumed values, in order of arrival, are the recorded ones in log order, followed by
      at most one that has been claimed but not recorded yet. */
  ghost predicate InOrder(rows: seq<Row>, ws: string, id: string, log: seq<Event>) {
    && Pick(rows, Consumed(ws)) == Answers(log) + Pick(rows, Open(ws, id, MemoOf(log)))
    && |Pick(rows, Open(ws, id, MemoOf(log)))| <= 1
  }

  /** Row `i` was claimed by a recv that has recorded a timeout. */
  ghost predicate LostRow(rows: seq<Row>, ws: string, id: string, memo: map<string, RPCRecord>, i: int, key: string) {
    0 <= i < |rows| && Taken(ws, rows[i]) && rows[i].consumedBy == IdemKey(id, key) && key in memo && memo[key].result == NULL
  }

  ghost predicate Lost(rows: seq<Row>, ws: string, id: string, memo: map<string, RPCRecord>) {
    exists i, key :: LostRow(rows, ws, id, memo, i, key)
  }

  lemma LostStays(rows: seq<Row>, rows': seq<Row>, ws: string, id: string, memo: map<string, RPCRecord>, memo': map<string, RPCRecord>)
    requires RowsStay(rows, rows') && Sub(memo, memo') && Lost(rows, ws, id, memo)
    ensures Lost(rows', ws, id, memo')
  {
    var i, key :| LostRow(rows, ws, id, memo, i, key);
    assert RowStays(rows, rows', i);
    assert LostRow(rows', ws, id, memo', i, key);
  }

  ghost predicate DueRecv(sys: System, memo: map<string, RPCRecord>, q: Path) {
    var due := InvAt(sys.prog, [], 0, CtxOf(sys, memo), q);
    due.Some? && IsRecv(due.value) && due.value.capability in sys.granted
  }

  /** Every consumed message of the workspace was claimed by a recv the script makes. */
  ghost predicate OwnersDue(sys: System, rows: seq<Row>, ws: string, memo: map<string, RPCRecord>) {
    forall i :: 0 <= i < |rows| && rows[i].workspace == ws && rows[i].consumedBy != "" ==> OwnerDue(sys, rows[i], memo)
  }

  ghost predicate OwnerDue(sys: System, r: Row, memo: map<string, RPCRecord>) {
    exists q: Path :: r.consumedBy == IdemKey(sys.id, Dotted(q)) && DueRecv(sys, memo, q)
  }

  /** Every recorded recv answer that is not null is a message the recv owns. */
  ghost predicate AnswersOwned(sys: System, rows: seq<Row>, ws: string, memo: map<string, RPCRecord>) {
    forall q: Path :: DueRecv(sys, memo, q) && Dotted(q) in memo && memo[Dotted(q)].result != NULL ==>
      Owned(rows, ws, IdemKey(sys.id, Dotted(q)), memo[Dotted(q)].result)
  }

  // ---- What one step does to the table

  /** Nothing of the workspace was claimed; new rows are unclaimed. */
  ghost predicate Untouched(rows: seq<Row>, rows': seq<Row>, ws: string) {
    && RowsStay(rows, rows')
    && (forall i :: 0 <= i < |rows| && rows[i].workspace == ws ==> rows'[i].consumedBy == rows[i].consumedBy)
    && (forall i :: |rows| <= i < |rows'| ==> rows'[i].consumedBy == "")
  }

  lemma UntouchedPick(rows: seq<Row>, rows': seq<Row>, ws: string, sel: Row -> bool)
    requires Untouched(rows, rows', ws)
    requires forall i :: 0 <= i < |rows| ==> SameChoice(rows[i], sel, rows'[i], sel)
    requires forall i :: |rows| <= i < |rows'| ==> !sel(rows'[i])
    ensures Pick(rows', sel) == Pick(rows, sel)
  {
    PickSame(rows, sel, rows'[..|rows|], sel);
    PickMore(rows'[..|rows|], rows'[|rows|..], sel);
    assert rows'[..|rows|] + rows'[|rows|..] == rows';
  }

  lemma UntouchedKeepsDue(sys: System, rows: seq<Row>, rows': seq<Row>, ws: string, memo: map<string, RPCRecord>)
    requires Untouched(rows, rows', ws) && OwnersDue(sys, rows, ws, memo)
    ensures OwnersDue(sys, rows', ws, memo)
  {
    forall i | 0 <= i < |rows'| && rows'[i].workspace == ws && rows'[i].consumedBy != "" ensures OwnerDue(sys, rows'[i], memo) {
      assert RowStays(rows, rows', i);
      assert OwnerDue(sys, rows[i], memo);
    }
  }

  /** A key that has been answered and owns nothing was answered with a timeout. */
  lemma AnsweredUnowned(sys: System, rows: seq<Row>, ws: string, memo: map<string, RPCRecord>, q: Path)
    requires AnswersOwned(sys, rows, ws, memo) && DueRecv(sys, memo, q) && Dotted(q) in memo
    requires First(rows, ws, IdemKey(sys.id, Dotted(q))).None?
    ensures memo[Dotted(q)].result == NULL
  {
    assert forall i :: 0 <= i < |rows| ==> !Is(rows[i], ws, IdemKey(sys.id, Dotted(q)));
  }

  lemma IdemKeyCancels(id: string, a: string, b: string)
    ensures IdemKey(id, a) == IdemKey(id, b) <==> a == b
  {
    assert IdemKey(id, a)[|id| + 1..] == a && IdemKey(id, b)[|id| + 1..] == b;
  }

  lemma ClaimKeepsOwnersDue(sys: System, rows: seq<Row>, ws: string, memo: map<string, RPCRecord>, q: Path)
    requires OwnersDue(sys, rows, ws, memo) && DueRecv(sys, memo, q)
    ensures OwnersDue(sys, ClaimModel(rows, ws, IdemKey(sys.id, Dotted(q))).1, ws, memo)
  {
    var rows' := ClaimModel(rows, ws, IdemKey(sys.id, Dotted(q))).1;
    forall i | 0 <= i < |rows'| && rows'[i].workspace == ws && rows'[i].consumedBy != "" ensures OwnerDue(sys, rows'[i], memo) {
      if rows'[i] == rows[i] { assert OwnerDue(sys, rows[i], memo); }
    }
  }

  // ---- What one step does to the log

  lemma AnswersSnoc(log: seq<Event>, ev: Event)
    ensures Answers(log + [ev]) == Answers(log) + if RecvAnswer(ev) && ev.rpc.result != NULL then [ev.rpc.result] else []
  {
    assert (log + [ev])[..|log|] == log;
  }

  lemma OwnersStayDue(sys: System, rows: seq<Row>, ws: string, memo: map<string, RPCRecord>, memo': map<string, RPCRecord>)
    requires OwnersDue(sys, rows, ws, memo) && Sub(memo, memo')
    ensures OwnersDue(sys, rows, ws, memo')
  {
    forall i | 0 <= i < |rows| && rows[i].workspace == ws && rows[i].consumedBy != "" ensures OwnerDue(sys, rows[i], memo') {
      assert OwnerDue(sys, rows[i], memo);
      var q: Path :| rows[i].consumedBy == IdemKey(sys.id, Dotted(q)) && DueRecv(sys, memo, q);
      InvMonotone(sys.prog, [], 0, CtxOf(sys, memo), CtxOf(sys, memo'), q);
      assert DueRecv(sys, memo', q);
    }
  }

  // ---- One step of the whole system

  ghost predicate Receives(f: Fleet, w: World, h: Happening, e: string) {
    h.Engine? && h.e == e && Ran(StateOf(w, e), h.l).Some? && IsRecv(Ran(StateOf(w, e), h.l).value.0)
  }

  /** Only the actor's own recv claims from its workspace. */
  lemma OthersLeaveAlone(f: Fleet, w: World, h: Happening, e: string)
    requires SoleActor(f, e) && (h.Engine? ==> h.e in f.sites) && !Receives(f, w, h, e)
    ensures Untouched(w.rows, RowsNext(f, w, h), f.sites[e].workspace)
  {
    match h
    case Post(ws, data) =>
    case Engine(d, l, now) =>
      match Ran(StateOf(w, d), l)
      case None =>
      case Some((inv, key)) => OtherCallUntouched(f, w.rows, f.sites[d], inv, key, now, f.sites[e].workspace);
  }

  lemma OtherCallUntouched(f: Fleet, rows: seq<Row>, site: Site, inv: Invocation, key: string, now: int, ws: string)
    requires IsRecv(inv) ==> site.workspace != ws
    ensures Untouched(rows, RowsThen(f, rows, site, inv, key, now), ws)
  {
  }

  /** The recv a step runs is one the script makes. */
  lemma RanIsDue(sys: System, s: State, l: Label) returns (q: Path)
    requires Inv(sys, s) && Enabled(sys, s, l) && Ran(s, l).Some?
    ensures var (inv, key) := Ran(s, l).value;
            Dotted(q) == key && InvAt(sys.prog, [], 0, CtxOf(sys, MemoOf(s.log)), q) == Some(inv) && inv.capability in sys.granted
  {
    var a := if l.Execute? then l.a else [];
    ReplaySteps.LeafFacts(sys, s, l.r, a);
    q := a + [Leaf(s, l.r, a).value.idx];
    DueAt(sys, MemoOf(s.log), q);
  }

  /** What a step adds to the log. */
  lemma LogNext(sys: System, s: State, l: Label)
    requires Inv(sys, s) && Enabled(sys, s, l)
    requires !l.Record?
    ensures var log' := Next(sys, s, l).log;
            log' == s.log || (|log'| == |s.log| + 1 && !log'[|s.log|].Result? && log' == s.log + [log'[|s.log|]])
  {
    match l
    case Announce(_, _) => AnnounceNext(sys, s, l);
    case Snapshot(_, _, _) => BarrierNext(sys, s, l);
    case Flush(_, _) => BarrierNext(sys, s, l);
    case _ => NoWrite(sys, s, l);
  }

  lemma AnnounceNext(sys: System, s: State, l: Label)
    requires Inv(sys, s) && l.Announce? && Enabled(sys, s, l)
    ensures Next(sys, s, l).log == s.log + [Intent(|s.log|, CallRecord(sys.id, KeyAt(Leaf(s, l.r, l.a).value, l.a), Leaf(s, l.r, l.a).value.inv))]
  {
    ReplaySteps.HolderWrites(s, l.r, Intent(0, CallRecord(sys.id, KeyAt(Leaf(s, l.r, l.a).value, l.a), Leaf(s, l.r, l.a).value.inv)));
  }

  lemma BarrierNext(sys: System, s: State, l: Label)
    requires Inv(sys, s) && (l.Snapshot? || l.Flush?) && Enabled(sys, s, l)
    ensures Next(sys, s, l).log == s.log + [Barrier(|s.log|, l.key, s.attempts[l.r].view.cursor)]
  {
    ReplaySteps.HolderWrites(s, l.r, Barrier(0, l.key, s.attempts[l.r].view.cursor));
  }

  lemma NoWrite(sys: System, s: State, l: Label)
    requires Enabled(sys, s, l) && !l.Announce? && !l.Record? && !l.Snapshot? && !l.Flush?
    ensures Next(sys, s, l).log == s.log
  {
  }

  lemma RecordNext(sys: System, s: State, l: Label)
    requires Inv(sys, s) && l.Record? && Enabled(sys, s, l)
    ensures Next(sys, s, l).log == s.log + [Recorded(sys, s, l)]
  {
    ReplaySteps.HolderWrites(s, l.r, Renumber(Recorded(sys, s, l), 0));
  }

  ghost function Recorded(sys: System, s: State, l: Label): Event
    requires l.Record? && Enabled(sys, s, l)
  {
    var n := Leaf(s, l.r, l.a).value;
    Result(|s.log|, ResultRecord(sys.id, KeyAt(n, l.a), n.inv, n.stage.outcome))
  }

  /** The call a Record step answers is the one waiting. */
  lemma RecordedIsDue(sys: System, s: State, l: Label) returns (q: Path)
    requires Inv(sys, s) && l.Record? && Enabled(sys, s, l)
    ensures var n := Leaf(s, l.r, l.a).value;
            && Recorded(sys, s, l).rpc.callKey == Dotted(q) && Dotted(q) !in MemoOf(s.log)
            && InvAt(sys.prog, [], 0, CtxOf(sys, MemoOf(s.log)), q) == Some(n.inv) && n.inv.capability in sys.granted
            && SameCall(Recorded(sys, s, l).rpc, n.inv)
  {
    var n := Leaf(s, l.r, l.a).value;
    ReplaySteps.LeafFacts(sys, s, l.r, l.a);
    q := l.a + [n.idx];
    DueAt(sys, MemoOf(s.log), q);
    ReplayAnswersAlike(sys.id, KeyAt(n, l.a), n.inv, n.stage.outcome);
  }

  ghost predicate OrderIn(f: Fleet, w: World, e: string)
    requires e in f.sites
  {
    InOrder(w.rows, f.sites[e].workspace, f.sites[e].sys.id, StateOf(w, e).log)
  }

  ghost predicate LostIn(f: Fleet, w: World, e: string)
    requires e in f.sites
  {
    Lost(w.rows, f.sites[e].workspace, f.sites[e].sys.id, MemoOf(StateOf(w, e).log))
  }

  ghost predicate DueIn(f: Fleet, w: World, e: string)
    requires e in f.sites
  {
    OwnersDue(f.sites[e].sys, w.rows, f.sites[e].workspace, MemoOf(StateOf(w, e).log))
  }

  lemma MemoNext(sys: System, s: State, l: Label)
    requires Inv(sys, s) && Enabled(sys, s, l)
    ensures Sub(MemoOf(s.log), MemoOf(Next(sys, s, l).log))
    ensures !l.Record? ==> MemoOf(Next(sys, s, l).log) == MemoOf(s.log)
  {
    var log' := Next(sys, s, l).log;
    if l.Record? {
      RecordNext(sys, s, l);
      var q := RecordedIsDue(sys, s, l);
      MemoGrows(s.log, Recorded(sys, s, l));
    } else {
      LogNext(sys, s, l);
      if log' != s.log { MemoSnoc(s.log, log'[|s.log|]); }
    }
  }

  lemma AnswersAreOwned(f: Fleet, hs: seq<Happening>, e: string)
    requires Lawful(f, hs) && e in f.sites
    ensures var w := WorldAfter(f, hs); AnswersOwned(f.sites[e].sys, w.rows, f.sites[e].workspace, MemoOf(StateOf(w, e).log))
  {
    var w, sys := WorldAfter(f, hs), f.sites[e].sys;
    var log := StateOf(w, e).log;
    OwnInv(f, hs, e);
    forall q: Path | DueRecv(sys, MemoOf(log), q) && Dotted(q) in MemoOf(log) && MemoOf(log)[Dotted(q)].result != NULL
      ensures Owned(w.rows, f.sites[e].workspace, IdemKey(sys.id, Dotted(q)), MemoOf(log)[Dotted(q)].result)
    {
      var i := MemoIsRecorded(log, Dotted(q));
      assert RecordOk(sys, MemoOf(log), log[i].rpc);
      DueAt(sys, MemoOf(log), q);
      AnswerOwned(f, hs, e, i);
    }
  }

  /** The table and log of the actor after a step, each by its own rule. */
  lemma ThenParts(f: Fleet, w: World, h: Happening, e: string)
    requires CanHappen(f, w, h) && e in f.sites
    ensures WorldNext(f, w, h).rows == RowsNext(f, w, h)
    ensures h.Engine? && h.e == e ==> Enabled(f.sites[e].sys, StateOf(w, e), h.l)
                                      && StateOf(WorldNext(f, w, h), e) == Next(f.sites[e].sys, StateOf(w, e), h.l)
    ensures !(h.Engine? && h.e == e) ==> StateOf(WorldNext(f, w, h), e) == StateOf(w, e)
  {
  }

  lemma ReceiveParts(f: Fleet, hs: seq<Happening>, h: Happening, e: string) returns (q: Path)
    requires Lawful(f, hs) && CanHappen(f, WorldAfter(f, hs), h) && SoleActor(f, e) && Receives(f, WorldAfter(f, hs), h, e)
    ensures var w, w', site := WorldAfter(f, hs), WorldNext(f, WorldAfter(f, hs), h), f.sites[e];
            && w'.rows == ClaimModel(w.rows, site.workspace, IdemKey(site.sys.id, Dotted(q))).1
            && StateOf(w', e).log == StateOf(w, e).log
            && Ran(StateOf(w, e), h.l).value.1 == Dotted(q)
            && DueRecv(site.sys, MemoOf(StateOf(w, e).log), q)
  {
    var w, site := WorldAfter(f, hs), f.sites[e];
    OwnInv(f, hs, e);
    ThenParts(f, w, h, e);
    q := RanIsDue(site.sys, StateOf(w, e), h.l);
    NoWrite(site.sys, StateOf(w, e), h.l);
  }

  lemma RecordParts(f: Fleet, hs: seq<Happening>, e: string) returns (q: Path, ev: Event, inv: Invocation)
    requires Lawful(f, hs) && hs != [] && SoleActor(f, e)
    requires var h := hs[|hs| - 1]; h.Engine? && h.e == e && h.l.Record?
    ensures var w, w', sys := WorldAfter(f, hs[..|hs| - 1]), WorldAfter(f, hs), f.sites[e].sys;
            var log := StateOf(w, e).log;
            && w'.rows == w.rows && StateOf(w', e).log == log + [ev] && ev == Recorded(sys, StateOf(w, e), hs[|hs| - 1].l)
            && ev.Result? && ev.rpc.callKey == Dotted(q) && Dotted(q) !in MemoOf(log)
            && InvAt(sys.prog, [], 0, CtxOf(sys, MemoOf(log)), q) == Some(inv) && inv.capability in sys.granted
            && SameCall(ev.rpc, inv)
            && (IsRecv(inv) && ev.rpc.result != NULL ==> Owned(w.rows, f.sites[e].workspace, IdemKey(sys.id, Dotted(q)), ev.rpc.result))
  {
    var w, h, sys := WorldAfter(f, hs[..|hs| - 1]), hs[|hs| - 1], f.sites[e].sys;
    var s := StateOf(w, e);
    OwnInv(f, hs[..|hs| - 1], e);
    ThenParts(f, w, h, e);
    RecordNext(sys, s, h.l);
    q := RecordedIsDue(sys, s, h.l);
    ev, inv := Recorded(sys, s, h.l), Leaf(s, h.l.r, h.l.a).value.inv;
    if RecvAnswer(ev) { AnswerOwned(f, hs, e, |s.log|); }
  }

  // ---- Owners stay due

  lemma ReceiveKeepsDue(f: Fleet, hs: seq<Happening>, h: Happening, e: string)
    requires Lawful(f, hs) && CanHappen(f, WorldAfter(f, hs), h) && SoleActor(f, e) && Receives(f, WorldAfter(f, hs), h, e)
    requires DueIn(f, WorldAfter(f, hs), e)
    ensures DueIn(f, WorldNext(f, WorldAfter(f, hs), h), e)
  {
    var w, site := WorldAfter(f, hs), f.sites[e];
    var q := ReceiveParts(f, hs, h, e);
    ClaimKeepsOwnersDue(site.sys, w.rows, site.workspace, MemoOf(StateOf(w, e).log), q);
  }

  lemma OtherStepKeepsDue(f: Fleet, hs: seq<Happening>, h: Happening, e: string)
    requires Lawful(f, hs) && CanHappen(f, WorldAfter(f, hs), h) && SoleActor(f, e) && !Receives(f, WorldAfter(f, hs), h, e)
    requires DueIn(f, WorldAfter(f, hs), e)
    ensures DueIn(f, WorldNext(f, WorldAfter(f, hs), h), e)
  {
    var w, site := WorldAfter(f, hs), f.sites[e];
    var s, rows' := StateOf(w, e), RowsNext(f, w, h);
    OwnInv(f, hs, e);
    ThenParts(f, w, h, e);
    OthersLeaveAlone(f, w, h, e);
    UntouchedKeepsDue(site.sys, w.rows, rows', site.workspace, MemoOf(s.log));
    if h.Engine? && h.e == e {
      MemoNext(site.sys, s, h.l);
      OwnersStayDue(site.sys, rows', site.workspace, MemoOf(s.log), MemoOf(Next(site.sys, s, h.l).log));
    }
  }

  lemma {:induction false} AlwaysDue(f: Fleet, hs: seq<Happening>, e: string)
    requires Lawful(f, hs) && SoleActor(f, e)
    ensures DueIn(f, WorldAfter(f, hs), e)
  {
    if hs != [] {
      var init, h := hs[..|hs| - 1], hs[|hs| - 1];
      AlwaysDue(f, init, e);
      if Receives(f, WorldAfter(f, init), h, e) { ReceiveKeepsDue(f, init, h, e); } else { OtherStepKeepsDue(f, init, h, e); }
    }
  }

  lemma LostForGood(f: Fleet, hs: seq<Happening>, e: string)
    requires Lawful(f, hs) && hs != [] && e in f.sites
    ensures LostIn(f, WorldAfter(f, hs[..|hs| - 1]), e) ==> LostIn(f, WorldAfter(f, hs), e)
  {
    var w, h, site := WorldAfter(f, hs[..|hs| - 1]), hs[|hs| - 1], f.sites[e];
    OwnInv(f, hs[..|hs| - 1], e);
    ThenParts(f, w, h, e);
    NextKeepsRows(f, w, h);
    if h.Engine? && h.e == e { MemoNext(site.sys, StateOf(w, e), h.l); }
    if LostIn(f, w, e) {
      LostStays(w.rows, RowsNext(f, w, h), site.workspace, site.sys.id, MemoOf(StateOf(w, e).log), MemoOf(StateOf(WorldAfter(f, hs), e).log));
    }
  }

  // ---- Order of arrival

  /** The row's owner has recorded a value. */
  ghost predicate Received(ws: string, id: string, memo: map<string, RPCRecord>, r: Row) {
    Taken(ws, r) && exists key :: key in memo && r.consumedBy == IdemKey(id, key) && memo[key].result != NULL
  }

  ghost function Given(ws: string, id: string, memo: map<string, RPCRecord>): Row -> bool {
    (r: Row) => Received(ws, id, memo, r)
  }

  /** The recorded values are those of the received rows, in order of arrival. */
  ghost predicate InArrivalOrder(rows: seq<Row>, ws: string, id: string, log: seq<Event>) {
    Answers(log) == Pick(rows, Given(ws, id, MemoOf(log)))
  }

  /** A message claimed and not answered yet came after all received ones. */
  ghost predicate OpenLast(rows: seq<Row>, ws: string, id: string, memo: map<string, RPCRecord>) {
    forall i, j :: 0 <= i < |rows| && 0 <= j < |rows| && Open(ws, id, memo)(rows[i]) && Given(ws, id, memo)(rows[j]) ==> j < i
  }

  lemma ReceivedIff(ws: string, id: string, memo: map<string, RPCRecord>, r: Row, key: string)
    requires r.consumedBy == IdemKey(id, key)
    ensures Received(ws, id, memo, r) <==> Taken(ws, r) && key in memo && memo[key].result != NULL
    ensures Open(ws, id, memo)(r) <==> Taken(ws, r) && key !in memo
  {
    forall k | r.consumedBy == IdemKey(id, k) ensures k == key { IdemKeyCancels(id, k, key); }
  }

  // ---- A claim

  /** Claiming row `j` for the call at `q` is no receipt yet. */
  lemma ClaimedNotReceived(sys: System, rows: seq<Row>, ws: string, memo: map<string, RPCRecord>, q: Path, j: nat)
    requires AnswersOwned(sys, rows, ws, memo) && DueRecv(sys, memo, q)
    requires First(rows, ws, IdemKey(sys.id, Dotted(q))).None? && j < |rows|
    ensures !Received(ws, sys.id, memo, rows[j].(consumedBy := IdemKey(sys.id, Dotted(q))))
  {
    ReceivedIff(ws, sys.id, memo, rows[j].(consumedBy := IdemKey(sys.id, Dotted(q))), Dotted(q));
    if Dotted(q) in memo { AnsweredUnowned(sys, rows, ws, memo, q); }
  }

  lemma UnclaimedNotReceived(ws: string, id: string, memo: map<string, RPCRecord>, r: Row)
    requires r.consumedBy == ""
    ensures !Received(ws, id, memo, r) && !Open(ws, id, memo)(r)
  {
  }

  lemma ClaimedRowKeeps(sys: System, rows: seq<Row>, ws: string, log: seq<Event>, q: Path, j: nat)
    requires Fifo(rows, ws) && AnswersOwned(sys, rows, ws, MemoOf(log)) && DueRecv(sys, MemoOf(log), q)
    requires First(rows, ws, IdemKey(sys.id, Dotted(q))).None? && First(rows, ws, "") == Some(j)
    requires InArrivalOrder(rows, ws, sys.id, log) && OpenLast(rows, ws, sys.id, MemoOf(log))
    ensures var rows' := rows[j := rows[j].(consumedBy := IdemKey(sys.id, Dotted(q)))];
            InArrivalOrder(rows', ws, sys.id, log) && OpenLast(rows', ws, sys.id, MemoOf(log))
  {
    var memo := MemoOf(log);
    var rows' := rows[j := rows[j].(consumedBy := IdemKey(sys.id, Dotted(q)))];
    ClaimedNotReceived(sys, rows, ws, memo, q, j);
    UnclaimedNotReceived(ws, sys.id, memo, rows[j]);
    assert forall i :: 0 <= i < |rows| && i != j ==> rows'[i] == rows[i];
    PickSame(rows, Given(ws, sys.id, memo), rows', Given(ws, sys.id, memo));
    forall k | 0 <= k < |rows| && Given(ws, sys.id, memo)(rows'[k]) ensures k < j {
      assert rows'[k] == rows[k] && rows[k].consumedBy != "";
      assert Is(rows[j], ws, "");
    }
  }

  lemma ClaimKeeps(sys: System, rows: seq<Row>, ws: string, log: seq<Event>, q: Path)
    requires Fifo(rows, ws) && AnswersOwned(sys, rows, ws, MemoOf(log)) && DueRecv(sys, MemoOf(log), q)
    requires InArrivalOrder(rows, ws, sys.id, log) && OpenLast(rows, ws, sys.id, MemoOf(log))
    ensures var rows' := ClaimModel(rows, ws, IdemKey(sys.id, Dotted(q))).1;
            InArrivalOrder(rows', ws, sys.id, log) && OpenLast(rows', ws, sys.id, MemoOf(log))
  {
    if First(rows, ws, IdemKey(sys.id, Dotted(q))).None? && First(rows, ws, "").Some? {
      ClaimedRowKeeps(sys, rows, ws, log, q, First(rows, ws, "").value);
    }
  }

  // ---- Steps that claim nothing and answer nothing

  lemma UntouchedKeepsArrival(rows: seq<Row>, rows': seq<Row>, ws: string, id: string, log: seq<Event>)
    requires Untouched(rows, rows', ws) && InArrivalOrder(rows, ws, id, log) && OpenLast(rows, ws, id, MemoOf(log))
    ensures InArrivalOrder(rows', ws, id, log) && OpenLast(rows', ws, id, MemoOf(log))
  {
    var memo := MemoOf(log);
    forall i | 0 <= i < |rows|
      ensures SameChoice(rows[i], Given(ws, id, memo), rows'[i], Given(ws, id, memo))
      ensures Open(ws, id, memo)(rows'[i]) ==> Open(ws, id, memo)(rows[i])
    {
      assert RowStays(rows, rows', i);
    }
    forall i | |rows| <= i < |rows'| ensures !Given(ws, id, memo)(rows'[i]) && !Open(ws, id, memo)(rows'[i]) {
      UnclaimedNotReceived(ws, id, memo, rows'[i]);
    }
    UntouchedPick(rows, rows', ws, Given(ws, id, memo));
  }

  lemma OtherEventKeepsArrival(rows: seq<Row>, ws: string, id: string, log: seq<Event>, ev: Event)
    requires InArrivalOrder(rows, ws, id, log) && OpenLast(rows, ws, id, MemoOf(log)) && !ev.Result?
    ensures InArrivalOrder(rows, ws, id, log + [ev]) && OpenLast(rows, ws, id, MemoOf(log + [ev]))
  {
    AnswersSnoc(log, ev);
    MemoSnoc(log, ev);
  }

  // ---- An answer

  /** Of a sequential script, only the call that waits owns an open message. */
  lemma OpenOwner(sys: System, rows: seq<Row>, ws: string, memo: map<string, RPCRecord>, q: Path, inv: Invocation, i: nat)
    requires Sequential(sys.prog) && OwnersDue(sys, rows, ws, memo) && Dotted(q) !in memo
    requires InvAt(sys.prog, [], 0, CtxOf(sys, memo), q) == Some(inv) && inv.capability in sys.granted
    requires i < |rows| && Open(ws, sys.id, memo)(rows[i])
    ensures IsRecv(inv) && rows[i].consumedBy == IdemKey(sys.id, Dotted(q))
  {
    assert OwnerDue(sys, rows[i], memo);
    var u: Path :| rows[i].consumedBy == IdemKey(sys.id, Dotted(u)) && DueRecv(sys, memo, u);
    ReceivedIff(ws, sys.id, memo, rows[i], Dotted(u));
    assert [] + q == q && [] + u == u;
    FrontierUnique(sys.prog, [], 0, CtxOf(sys, memo), q, u);
  }

  /** What the answer to the call at `q` does to each row: the one `q` owns becomes received,
      if the answer is a value. */
  lemma AnsweredRow(ws: string, id: string, memo: map<string, RPCRecord>, q: Path, rec: RPCRecord, r: Row)
    requires Dotted(q) !in memo
    ensures var memo' := memo[Dotted(q) := rec]; var mine := Taken(ws, r) && r.consumedBy == IdemKey(id, Dotted(q));
            && (Received(ws, id, memo', r) <==> Received(ws, id, memo, r) || (mine && rec.result != NULL))
            && (mine ==> Open(ws, id, memo)(r) && !Received(ws, id, memo, r))
            && (Open(ws, id, memo')(r) ==> Open(ws, id, memo)(r) && !mine)
  {
    var memo' := memo[Dotted(q) := rec];
    if r.consumedBy == IdemKey(id, Dotted(q)) {
      ReceivedIff(ws, id, memo, r, Dotted(q));
      ReceivedIff(ws, id, memo', r, Dotted(q));
    } else {
      AnsweredElsewhere(ws, id, memo, q, rec, r);
    }
  }

  lemma AnsweredElsewhere(ws: string, id: string, memo: map<string, RPCRecord>, q: Path, rec: RPCRecord, r: Row)
    requires Dotted(q) !in memo && r.consumedBy != IdemKey(id, Dotted(q))
    ensures Received(ws, id, memo[Dotted(q) := rec], r) <==> Received(ws, id, memo, r)
    ensures Open(ws, id, memo[Dotted(q) := rec])(r) ==> Open(ws, id, memo)(r)
  {
    var memo' := memo[Dotted(q) := rec];
    if Received(ws, id, memo, r) {
      var key :| key in memo && r.consumedBy == IdemKey(id, key) && memo[key].result != NULL;
      assert key in memo' && memo'[key] == memo[key];
    }
    if HasAnswer(id, memo, r.consumedBy) {
      var key :| key in memo && r.consumedBy == IdemKey(id, key);
      assert key in memo';
    }
  }

  lemma AnswerLeavesNoneOpen(sys: System, rows: seq<Row>, ws: string, memo: map<string, RPCRecord>, rec: RPCRecord, q: Path, inv: Invocation)
    requires Sequential(sys.prog) && OwnersDue(sys, rows, ws, memo) && Dotted(q) !in memo
    requires InvAt(sys.prog, [], 0, CtxOf(sys, memo), q) == Some(inv) && inv.capability in sys.granted
    ensures forall i :: 0 <= i < |rows| ==> !Open(ws, sys.id, memo[Dotted(q) := rec])(rows[i])
  {
    forall i | 0 <= i < |rows| ensures !Open(ws, sys.id, memo[Dotted(q) := rec])(rows[i]) {
      AnsweredRow(ws, sys.id, memo, q, rec, rows[i]);
      if Open(ws, sys.id, memo)(rows[i]) { OpenOwner(sys, rows, ws, memo, q, inv, i); }
    }
  }

  /** The answer is a value: the row the call owns joins the received ones, behind all of them. */
  lemma ValueArrives(sys: System, rows: seq<Row>, ws: string, memo: map<string, RPCRecord>, rec: RPCRecord, q: Path, j: nat)
    requires Fifo(rows, ws) && OpenLast(rows, ws, sys.id, memo) && Dotted(q) !in memo
    requires rec.result != NULL && j < |rows| && Is(rows[j], ws, IdemKey(sys.id, Dotted(q))) && rows[j].data == rec.result
    ensures Pick(rows, Given(ws, sys.id, memo[Dotted(q) := rec])) == Pick(rows, Given(ws, sys.id, memo)) + [rec.result]
  {
    var memo' := memo[Dotted(q) := rec];
    forall i | 0 <= i < |rows|
      ensures i != j ==> SameChoice(rows[i], Given(ws, sys.id, memo), rows[i], Given(ws, sys.id, memo'))
      ensures i > j ==> !Given(ws, sys.id, memo)(rows[i])
    {
      AnsweredRow(ws, sys.id, memo, q, rec, rows[i]);
      AnsweredRow(ws, sys.id, memo, q, rec, rows[j]);
    }
    AnsweredRow(ws, sys.id, memo, q, rec, rows[j]);
    PickOneMore(rows, Given(ws, sys.id, memo), rows, Given(ws, sys.id, memo'), j);
  }

  /** The answer is a timeout, or no recv's: nothing more is received. */
  lemma NothingArrives(sys: System, rows: seq<Row>, ws: string, memo: map<string, RPCRecord>, rec: RPCRecord, q: Path)
    requires Dotted(q) !in memo
    requires rec.result == NULL || forall i :: 0 <= i < |rows| ==> !Is(rows[i], ws, IdemKey(sys.id, Dotted(q)))
    ensures Pick(rows, Given(ws, sys.id, memo[Dotted(q) := rec])) == Pick(rows, Given(ws, sys.id, memo))
  {
    var memo' := memo[Dotted(q) := rec];
    forall i | 0 <= i < |rows| ensures SameChoice(rows[i], Given(ws, sys.id, memo'), rows[i], Given(ws, sys.id, memo)) {
      AnsweredRow(ws, sys.id, memo, q, rec, rows[i]);
    }
    PickSame(rows, Given(ws, sys.id, memo'), rows, Given(ws, sys.id, memo));
  }

  /** Only a recv owns messages. */
  lemma OwnedByRecv(sys: System, rows: seq<Row>, ws: string, memo: map<string, RPCRecord>, q: Path, inv: Invocation, i: nat)
    requires OwnersDue(sys, rows, ws, memo) && InvAt(sys.prog, [], 0, CtxOf(sys, memo), q) == Some(inv)
    requires i < |rows| && Is(rows[i], ws, IdemKey(sys.id, Dotted(q)))
    ensures IsRecv(inv)
  {
    assert OwnerDue(sys, rows[i], memo);
    var u: Path :| rows[i].consumedBy == IdemKey(sys.id, Dotted(u)) && DueRecv(sys, memo, u);
    IdemKeyInjective(sys.id, u, sys.id, q);
  }

  lemma AnswerKeepsArrival(sys: System, rows: seq<Row>, ws: string, log: seq<Event>, ev: Event, q: Path, inv: Invocation)
    requires Sequential(sys.prog) && Fifo(rows, ws) && OwnersDue(sys, rows, ws, MemoOf(log))
    requires InArrivalOrder(rows, ws, sys.id, log) && OpenLast(rows, ws, sys.id, MemoOf(log))
    requires ev.Result? && ev.rpc.callKey == Dotted(q) && Dotted(q) !in MemoOf(log)
    requires InvAt(sys.prog, [], 0, CtxOf(sys, MemoOf(log)), q) == Some(inv) && inv.capability in sys.granted
    requires SameCall(ev.rpc, inv)
    requires IsRecv(inv) && ev.rpc.result != NULL ==> Owned(rows, ws, IdemKey(sys.id, Dotted(q)), ev.rpc.result)
    ensures InArrivalOrder(rows, ws, sys.id, log + [ev]) && OpenLast(rows, ws, sys.id, MemoOf(log + [ev]))
  {
    var memo := MemoOf(log);
    AnswersSnoc(log, ev);
    MemoSnoc(log, ev);
    AnswerLeavesNoneOpen(sys, rows, ws, memo, ev.rpc, q, inv);
    if IsRecv(inv) && ev.rpc.result != NULL {
      var j: nat :| j < |rows| && Is(rows[j], ws, IdemKey(sys.id, Dotted(q))) && rows[j].data == ev.rpc.result;
      ValueArrives(sys, rows, ws, memo, ev.rpc, q, j);
    } else {
      if i: nat :| i < |rows| && Is(rows[i], ws, IdemKey(sys.id, Dotted(q))) { OwnedByRecv(sys, rows, ws, memo, q, inv, i); }
      NothingArrives(sys, rows, ws, memo, ev.rpc, q);
    }
  }

  ghost predicate ArrivalIn(f: Fleet, w: World, e: string)
    requires e in f.sites
  {
    && InArrivalOrder(w.rows, f.sites[e].workspace, f.sites[e].sys.id, StateOf(w, e).log)
    && OpenLast(w.rows, f.sites[e].workspace, f.sites[e].sys.id, MemoOf(StateOf(w, e).log))
  }

  lemma ReceiveKeepsArrival(f: Fleet, hs: seq<Happening>, h: Happening, e: string)
    requires Lawful(f, hs) && CanHappen(f, WorldAfter(f, hs), h) && SoleActor(f, e) && Receives(f, WorldAfter(f, hs), h, e)
    requires ArrivalIn(f, WorldAfter(f, hs), e)
    ensures ArrivalIn(f, WorldNext(f, WorldAfter(f, hs), h), e)
  {
    var w, site := WorldAfter(f, hs), f.sites[e];
    var q := ReceiveParts(f, hs, h, e);
    AlwaysFifo(f, hs, site.workspace);
    AnswersAreOwned(f, hs, e);
    ClaimKeeps(site.sys, w.rows, site.workspace, StateOf(w, e).log, q);
  }

  lemma OtherStepKeepsArrival(f: Fleet, hs: seq<Happening>, h: Happening, e: string)
    requires Lawful(f, hs) && CanHappen(f, WorldAfter(f, hs), h) && SoleActor(f, e) && !Receives(f, WorldAfter(f, hs), h, e)
    requires ArrivalIn(f, WorldAfter(f, hs), e) && !(h.Engine? && h.e == e && h.l.Record?)
    ensures ArrivalIn(f, WorldNext(f, WorldAfter(f, hs), h), e)
  {
    var w, site := WorldAfter(f, hs), f.sites[e];
    var s, rows' := StateOf(w, e), RowsNext(f, w, h);
    OwnInv(f, hs, e);
    ThenParts(f, w, h, e);
    OthersLeaveAlone(f, w, h, e);
    UntouchedKeepsArrival(w.rows, rows', site.workspace, site.sys.id, s.log);
    if h.Engine? && h.e == e {
      LogNext(site.sys, s, h.l);
      var log' := Next(site.sys, s, h.l).log;
      if log' != s.log { OtherEventKeepsArrival(rows', site.workspace, site.sys.id, s.log, log'[|s.log|]); }
    }
  }

  lemma RecordKeepsArrival(f: Fleet, hs: seq<Happening>, e: string)
    requires Lawful(f, hs) && hs != [] && SoleActor(f, e)
    requires var h := hs[|hs| - 1]; h.Engine? && h.e == e && h.l.Record?
    requires ArrivalIn(f, WorldAfter(f, hs[..|hs| - 1]), e)
    ensures ArrivalIn(f, WorldAfter(f, hs), e)
  {
    var w, site := WorldAfter(f, hs[..|hs| - 1]), f.sites[e];
    var q, ev, inv := RecordParts(f, hs, e);
    AlwaysDue(f, hs[..|hs| - 1], e);
    AlwaysFifo(f, hs[..|hs| - 1], site.workspace);
    AnswerKeepsArrival(site.sys, w.rows, site.workspace, StateOf(w, e).log, ev, q, inv);
  }

  lemma {:induction false} AlwaysInArrivalOrder(f: Fleet, hs: seq<Happening>, e: string)
    requires Lawful(f, hs) && SoleActor(f, e)
    ensures ArrivalIn(f, WorldAfter(f, hs), e)
  {
    if hs != [] {
      var init, h := hs[..|hs| - 1], hs[|hs| - 1];
      AlwaysInArrivalOrder(f, init, e);
      if Receives(f, WorldAfter(f, init), h, e) {
        ReceiveKeepsArrival(f, init, h, e);
      } else if h.Engine? && h.e == e && h.l.Record? {
        RecordKeepsArrival(f, hs, e);
      } else {
        OtherStepKeepsArrival(f, init, h, e);
      }
    }
  }

  lemma NonNullSnoc(xs: seq<string>, x: string)
    ensures NonNull(xs + [x]) == NonNull(xs) + if x != NULL then [x] else []
  {
    assert (xs + [x])[..|xs|] == xs;
  }

  lemma {:induction false} ConsumedFirst(rows: seq<Row>, ws: string)
    requires Fifo(rows, ws)
    ensures Pick(rows, Consumed(ws)) <= NonNull(Sent(rows, ws))
    ensures (forall i :: 0 <= i < |rows| && rows[i].workspace == ws ==> rows[i].consumedBy != "") ==>
              Pick(rows, Consumed(ws)) == NonNull(Sent(rows, ws))
  {
    if rows != [] {
      var n := |rows| - 1;
      ConsumedFirst(rows[..n], ws);
      assert forall i :: 0 <= i < n ==> rows[..n][i] == rows[i];
      if rows[n].workspace == ws {
        assert rows[n].consumedBy != "" ==> forall i :: 0 <= i < n && rows[i].workspace == ws ==> rows[i].consumedBy != "";
        NonNullSnoc(Sent(rows[..n], ws), rows[n].data);
      } else {
        assert Sent(rows, ws) == Sent(rows[..n], ws);
      }
    }
  }

  // ---- Nothing lost, nothing missing

  lemma {:induction false} PickAtMostOne(rows: seq<Row>, sel: Row -> bool)
    requires forall i, j :: 0 <= i < |rows| && 0 <= j < |rows| && sel(rows[i]) && sel(rows[j]) ==> i == j
    ensures |Pick(rows, sel)| <= 1
  {
    if rows != [] {
      var n := |rows| - 1;
      PickAtMostOne(rows[..n], sel);
      if sel(rows[n]) {
        forall i | 0 <= i < n ensures !sel(rows[..n][i]) { assert rows[..n][i] == rows[i]; }
        PickNone(rows[..n], sel);
      }
    }
  }

  /** Two selections, one behind the other, and both together. */
  lemma {:induction false} PickSplit(rows: seq<Row>, all: Row -> bool, first: Row -> bool, last: Row -> bool)
    requires forall i :: 0 <= i < |rows| ==> (all(rows[i]) <==> first(rows[i]) || last(rows[i])) && !(first(rows[i]) && last(rows[i]))
    requires forall i, j :: 0 <= i < |rows| && 0 <= j < |rows| && last(rows[i]) && first(rows[j]) ==> j < i
    ensures Pick(rows, all) == Pick(rows, first) + Pick(rows, last)
  {
    if rows != [] {
      var n := |rows| - 1;
      assert forall i :: 0 <= i < n ==> rows[..n][i] == rows[i];
      PickSplit(rows[..n], all, first, last);
      if first(rows[n]) {
        PickNone(rows[..n], last);
        assert Pick(rows[..n], first) + [] == Pick(rows[..n], first);
      }
      assert Pick(rows, all) == Pick(rows[..n], all) + if first(rows[n]) || last(rows[n]) then [rows[n].data] else [];
    }
  }

  /** Two disjoint selections are together no longer than a selection of both ... */
  lemma {:induction false} PickCovers(rows: seq<Row>, all: Row -> bool, first: Row -> bool, last: Row -> bool)
    requires forall i :: 0 <= i < |rows| ==> (first(rows[i]) || last(rows[i]) ==> all(rows[i])) && !(first(rows[i]) && last(rows[i]))
    ensures |Pick(rows, first)| + |Pick(rows, last)| <= |Pick(rows, all)|
  {
    if rows != [] {
      assert forall i :: 0 <= i < |rows| - 1 ==> rows[..|rows| - 1][i] == rows[i];
      PickCovers(rows[..|rows| - 1], all, first, last);
    }
  }

  /** ... and shorter if that has a row of neither. */
  lemma {:induction false} PickMisses(rows: seq<Row>, all: Row -> bool, first: Row -> bool, last: Row -> bool, lost: nat)
    requires forall i :: 0 <= i < |rows| ==> (first(rows[i]) || last(rows[i]) ==> all(rows[i])) && !(first(rows[i]) && last(rows[i]))
    requires lost < |rows| && all(rows[lost]) && !first(rows[lost]) && !last(rows[lost])
    ensures |Pick(rows, first)| + |Pick(rows, last)| < |Pick(rows, all)|
  {
    var n := |rows| - 1;
    assert forall i :: 0 <= i < n ==> rows[..n][i] == rows[i];
    if lost == n { PickCovers(rows[..n], all, first, last); } else { PickMisses(rows[..n], all, first, last, lost); }
  }

  /** At most one claimed message waits to be recorded. */
  lemma OneOpen(sys: System, rows: seq<Row>, ws: string, memo: map<string, RPCRecord>, i: nat, j: nat)
    requires Sequential(sys.prog) && Fifo(rows, ws) && OwnersDue(sys, rows, ws, memo)
    requires i < |rows| && j < |rows| && Open(ws, sys.id, memo)(rows[i]) && Open(ws, sys.id, memo)(rows[j])
    ensures i == j
  {
    assert OwnerDue(sys, rows[i], memo) && OwnerDue(sys, rows[j], memo);
    var q: Path :| rows[i].consumedBy == IdemKey(sys.id, Dotted(q)) && DueRecv(sys, memo, q);
    var u: Path :| rows[j].consumedBy == IdemKey(sys.id, Dotted(u)) && DueRecv(sys, memo, u);
    ReceivedIff(ws, sys.id, memo, rows[i], Dotted(q));
    ReceivedIff(ws, sys.id, memo, rows[j], Dotted(u));
    assert [] + q == q && [] + u == u;
    FrontierUnique(sys.prog, [], 0, CtxOf(sys, memo), q, u);
  }

  /** A claimed value is received, open or lost. */
  lemma TakenKinds(rows: seq<Row>, ws: string, id: string, memo: map<string, RPCRecord>, i: nat)
    requires i < |rows| && !Lost(rows, ws, id, memo)
    ensures Consumed(ws)(rows[i]) <==> Given(ws, id, memo)(rows[i]) || Open(ws, id, memo)(rows[i])
  {
    if Taken(ws, rows[i]) && HasAnswer(id, memo, rows[i].consumedBy) {
      var key :| key in memo && rows[i].consumedBy == IdemKey(id, key);
      assert memo[key].result == NULL ==> LostRow(rows, ws, id, memo, i, key);
    }
  }

  lemma InOrderUnlessLost(sys: System, rows: seq<Row>, ws: string, log: seq<Event>)
    requires Sequential(sys.prog) && Fifo(rows, ws) && OwnersDue(sys, rows, ws, MemoOf(log))
    requires InArrivalOrder(rows, ws, sys.id, log) && OpenLast(rows, ws, sys.id, MemoOf(log))
    requires !Lost(rows, ws, sys.id, MemoOf(log))
    ensures InOrder(rows, ws, sys.id, log)
  {
    var memo := MemoOf(log);
    forall i | 0 <= i < |rows| ensures Consumed(ws)(rows[i]) <==> Given(ws, sys.id, memo)(rows[i]) || Open(ws, sys.id, memo)(rows[i]) {
      TakenKinds(rows, ws, sys.id, memo, i);
    }
    PickSplit(rows, Consumed(ws), Given(ws, sys.id, memo), Open(ws, sys.id, memo));
    forall i, j | 0 <= i < |rows| && 0 <= j < |rows| && Open(ws, sys.id, memo)(rows[i]) && Open(ws, sys.id, memo)(rows[j]) ensures i == j {
      OneOpen(sys, rows, ws, memo, i, j);
    }
    PickAtMostOne(rows, Open(ws, sys.id, memo));
  }

  /** A lost message is one consumed value too many. */
  lemma LostBreaksOrder(rows: seq<Row>, ws: string, id: string, log: seq<Event>)
    requires InArrivalOrder(rows, ws, id, log) && Lost(rows, ws, id, MemoOf(log))
    ensures !InOrder(rows, ws, id, log)
  {
    var memo := MemoOf(log);
    var i, key :| LostRow(rows, ws, id, memo, i, key);
    ReceivedIff(ws, id, memo, rows[i], key);
    PickMisses(rows, Consumed(ws), Given(ws, id, memo), Open(ws, id, memo), i);
  }

  /** In every history, of any number of overlapping and crashing attempts: the actor's recorded
      messages are the consumed ones, in order of arrival and without a gap (but for one that
      may still wait to be recorded), exactly when no recv has recorded a timeout while a
      message was claimed under its key. They are then a prefix of the messages sent. */
  lemma MessagesInOrderIff(f: Fleet, hs: seq<Happening>, e: string)
    requires Lawful(f, hs) && SoleActor(f, e)
    ensures OrderIn(f, WorldAfter(f, hs), e) <==> !LostIn(f, WorldAfter(f, hs), e)
    ensures OrderIn(f, WorldAfter(f, hs), e) ==>
              Answers(StateOf(WorldAfter(f, hs), e).log) <= NonNull(Sent(WorldAfter(f, hs).rows, f.sites[e].workspace))
  {
    var w, site := WorldAfter(f, hs), f.sites[e];
    AlwaysInArrivalOrder(f, hs, e);
    AlwaysDue(f, hs, e);
    AlwaysFifo(f, hs, site.workspace);
    if LostIn(f, w, e) {
      LostBreaksOrder(w.rows, site.workspace, site.sys.id, StateOf(w, e).log);
    } else {
      InOrderUnlessLost(site.sys, w.rows, site.workspace, StateOf(w, e).log);
    }
    ConsumedFirst(w.rows, site.workspace);
  }
}
