/** Many executions sharing one message table: every recv claims from the table in the same
    step in which its executor runs, and any attempt may crash right after. */
module Delivery {
  import opened Types
  import opened CallKeys
  import opened Logs
  import opened Replay
  import opened ReplayInv
  import opened Inboxes
  import ReplaySteps
  import Schedules

  /** How the inbox executor reads its JSON arguments: recv's absolute deadline, and send's
      (workspace, data), or nothing when the arguments do not parse. */
  datatype Codec = Codec(deadline: string -> int, letter: string -> Option<(string, string)>)

  datatype Site = Site(sys: System, workspace: string)

  /** All executions of one database, by their ids. */
  datatype Fleet = Fleet(sites: map<string, Site>, codec: Codec)

  datatype World = World(rows: seq<Row>, states: map<string, State>)

  /** A message posted from outside, or a step of one execution's engine at clock time `now`. */
  datatype Happening = Post(workspace: string, data: string) | Engine(e: string, l: Label, now: int)

  ghost function StateOf(w: World, e: string): State {
    if e in w.states then w.states[e] else INITIAL
  }

  predicate IsRecv(inv: Invocation) {
    inv.capability == "inbox" && inv.operation == "recv"
  }

  predicate IsSend(inv: Invocation) {
    inv.capability == "inbox" && inv.operation == "send"
  }

  /** The call whose executor a step runs, with its key. */
  ghost function Ran(s: State, l: Label): Option<(Invocation, string)> {
    if !l.Execute? && !l.Park? then None else
      var a := if l.Execute? then l.a else [];
      match Leaf(s, l.r, a)
      case None => None
      case Some(n) => if n.Flight? then Some((n.inv, KeyAt(n, a))) else None
  }

  /** The outcomes the inbox executor can have; other executors are arbitrary. */
  ghost predicate MayGive(f: Fleet, rows: seq<Row>, site: Site, inv: Invocation, key: string, now: int, o: Outcome) {
    inv.capability == "inbox" ==>
      if IsRecv(inv) then o == RecvModel(rows, site.workspace, IdemKey(site.sys.id, key), f.codec.deadline(inv.args), now).0
      else if IsSend(inv) && f.codec.letter(inv.args).None? then o.Failure?
      else o == Success(NULL)
  }

  ghost function RowsThen(f: Fleet, rows: seq<Row>, site: Site, inv: Invocation, key: string, now: int): seq<Row> {
    if IsRecv(inv) then RecvModel(rows, site.workspace, IdemKey(site.sys.id, key), f.codec.deadline(inv.args), now).1
    else if IsSend(inv) && f.codec.letter(inv.args).Some? then
      var (target, data) := f.codec.letter(inv.args).value;
      EnqueueModel(rows, |rows| + 1, if target == "" then site.workspace else target, data)
    else rows
  }

  /** The table after a step. */
  ghost function RowsNext(f: Fleet, w: World, h: Happening): seq<Row>
    requires h.Engine? ==> h.e in f.sites
  {
    match h
    case Post(ws, data) => EnqueueModel(w.rows, |w.rows| + 1, ws, data)
    case Engine(e, l, now) =>
      match Ran(StateOf(w, e), l)
      case None => w.rows
      case Some((inv, key)) => RowsThen(f, w.rows, f.sites[e], inv, key, now)
  }

  ghost predicate CanHappen(f: Fleet, w: World, h: Happening) {
    h.Post? ||
      (&& h.e in f.sites && Enabled(f.sites[h.e].sys, StateOf(w, h.e), h.l)
       && (match Ran(StateOf(w, h.e), h.l)
           case None => true
           case Some((inv, key)) =>
             MayGive(f, w.rows, f.sites[h.e], inv, key, h.now, h.l.outcome)))
  }

  ghost function WorldNext(f: Fleet, w: World, h: Happening): World
    requires CanHappen(f, w, h)
  {
    World(RowsNext(f, w, h), if h.Post? then w.states else w.states[h.e := Next(f.sites[h.e].sys, StateOf(w, h.e), h.l)])
  }

  ghost predicate Lawful(f: Fleet, hs: seq<Happening>)
    decreases |hs|, 0
  {
    hs == [] || (Lawful(f, hs[..|hs| - 1]) && CanHappen(f, WorldAfter(f, hs[..|hs| - 1]), hs[|hs| - 1]))
  }

  ghost function WorldAfter(f: Fleet, hs: seq<Happening>): World
    requires Lawful(f, hs)
    decreases |hs|, 1
  {
    if hs == [] then World([], map[]) else WorldNext(f, WorldAfter(f, hs[..|hs| - 1]), hs[|hs| - 1])
  }

  /** What happened to one execution. */
  function Own(hs: seq<Happening>, e: string): seq<Label> {
    if hs == [] then [] else
      var h := hs[|hs| - 1];
      Own(hs[..|hs| - 1], e) + if h.Engine? && h.e == e then [h.l] else []
  }

  /** Seen from one execution, the whole history is a history of its own replay system. */
  lemma {:induction false} OwnIsPlay(f: Fleet, hs: seq<Happening>, e: string)
    requires Lawful(f, hs) && e in f.sites
    ensures Legal(f.sites[e].sys, Own(hs, e))
    ensures StateOf(WorldAfter(f, hs), e) == Play(f.sites[e].sys, Own(hs, e))
  {
    if hs != [] {
      var init, h := hs[..|hs| - 1], hs[|hs| - 1];
      OwnIsPlay(f, init, e);
      if h.Engine? && h.e == e {
        assert Own(hs, e)[..|Own(init, e)|] == Own(init, e);
      } else {
        assert Own(hs, e) == Own(init, e);
      }
    }
  }

  lemma OwnInv(f: Fleet, hs: seq<Happening>, e: string)
    requires Lawful(f, hs) && e in f.sites
    ensures Inv(f.sites[e].sys, StateOf(WorldAfter(f, hs), e)) && Schedules.Sourced(f.sites[e].sys, StateOf(WorldAfter(f, hs), e))
  {
    OwnIsPlay(f, hs, e);
    ReplaySteps.PlayKeeps(f.sites[e].sys, Own(hs, e));
    Schedules.PlayKeepsSourced(f.sites[e].sys, Own(hs, e));
  }

  // ---- Idempotency keys tell calls of all executions apart

  lemma {:induction false} DottedHasNoColon(p: Path)
    ensures ':' !in Dotted(p)
  {
    if p != [] {
      DottedHasNoColon(p[..|p| - 1]);
      ItoaHasNoColon(p[|p| - 1]);
    }
  }

  lemma {:induction false} ItoaHasNoColon(n: nat)
    ensures ':' !in Itoa(n)
  {
    if n >= 10 { ItoaHasNoColon(n / 10); }
  }

  /** Whatever the execution ids look like: equal idempotency keys mean the same execution
      and the same position in its call tree. */
  lemma IdemKeyInjective(e: string, p: Path, d: string, q: Path)
    requires IdemKey(e, Dotted(p)) == IdemKey(d, Dotted(q))
    ensures e == d && p == q
  {
    DottedHasNoColon(p);
    DottedHasNoColon(q);
    var s := IdemKey(e, Dotted(p));
    assert s[|e|] == ':' && s[|d|] == ':';
    assert forall k :: |e| < k < |s| ==> s[k] == Dotted(p)[k - |e| - 1];
    assert forall k :: |d| < k < |s| ==> s[k] == Dotted(q)[k - |d| - 1];
    assert e == s[..|e|] && d == s[..|d|];
    assert Dotted(p) == s[|e| + 1..] && Dotted(q) == s[|d| + 1..];
    DottedInjective(p, q);
  }

  // ---- Rows only gain owners

  ghost predicate RowStays(rows: seq<Row>, rows': seq<Row>, i: nat)
    requires i < |rows| <= |rows'|
  {
    && rows'[i].workspace == rows[i].workspace && rows'[i].data == rows[i].data
    && (rows[i].consumedBy != "" ==> rows'[i].consumedBy == rows[i].consumedBy)
  }

  ghost predicate RowsStay(rows: seq<Row>, rows': seq<Row>) {
    |rows| <= |rows'| && forall i :: 0 <= i < |rows| ==> RowStays(rows, rows', i)
  }

  lemma NextKeepsRows(f: Fleet, w: World, h: Happening)
    requires h.Engine? ==> h.e in f.sites
    ensures RowsStay(w.rows, RowsNext(f, w, h))
  {
    match h
    case Post(ws, data) =>
    case Engine(e, l, now) =>
      match Ran(StateOf(w, e), l)
      case None =>
      case Some((inv, key)) => ThenKeepsRows(f, w.rows, f.sites[e], inv, key, now);
  }

  lemma ThenKeepsRows(f: Fleet, rows: seq<Row>, site: Site, inv: Invocation, key: string, now: int)
    ensures RowsStay(rows, RowsThen(f, rows, site, inv, key, now))
  {
  }

  lemma ThenKeepsFifo(f: Fleet, rows: seq<Row>, site: Site, inv: Invocation, key: string, now: int, ws: string)
    requires Fifo(rows, ws) && Fifo(rows, site.workspace)
    ensures Fifo(RowsThen(f, rows, site, inv, key, now), ws)
  {
    if IsRecv(inv) {
      ClaimIsTake(rows, site.workspace, IdemKey(site.sys.id, key));
    } else if IsSend(inv) && f.codec.letter(inv.args).Some? {
      var (target, data) := f.codec.letter(inv.args).value;
      EnqueueIsSend(rows, |rows| + 1, if target == "" then site.workspace else target, data, ws);
    }
  }

  lemma NextKeepsFifo(f: Fleet, w: World, h: Happening, ws: string)
    requires h.Engine? ==> h.e in f.sites && Fifo(w.rows, f.sites[h.e].workspace)
    requires Fifo(w.rows, ws)
    ensures Fifo(RowsNext(f, w, h), ws)
  {
    match h
    case Post(v, data) => EnqueueIsSend(w.rows, |w.rows| + 1, v, data, ws);
    case Engine(e, l, now) =>
      match Ran(StateOf(w, e), l)
      case None =>
      case Some((inv, key)) => ThenKeepsFifo(f, w.rows, f.sites[e], inv, key, now, ws);
  }

  lemma {:induction false} AlwaysFifo(f: Fleet, hs: seq<Happening>, ws: string)
    requires Lawful(f, hs)
    ensures Fifo(WorldAfter(f, hs).rows, ws)
  {
    if hs != [] {
      var w, h := WorldAfter(f, hs[..|hs| - 1]), hs[|hs| - 1];
      AlwaysFifo(f, hs[..|hs| - 1], ws);
      if h.Engine? { AlwaysFifo(f, hs[..|hs| - 1], f.sites[h.e].workspace); }
      NextKeepsFifo(f, w, h, ws);
    }
  }

  // ---- Every value a recv gave out is a message it owns

  ghost predicate Owned(rows: seq<Row>, ws: string, idemKey: string, data: string) {
    exists i :: 0 <= i < |rows| && Is(rows[i], ws, idemKey) && rows[i].data == data
  }

  ghost predicate Backed(rows: seq<Row>, site: Site, x: Execution) {
    IsRecv(x.inv) && !x.outcome.Suspended? ==>
      x.outcome.Success? && (x.outcome.json != NULL ==> Owned(rows, site.workspace, IdemKey(site.sys.id, x.key), x.outcome.json))
  }

  lemma BackedStays(rows: seq<Row>, rows': seq<Row>, site: Site, x: Execution)
    requires RowsStay(rows, rows') && Backed(rows, site, x)
    ensures Backed(rows', site, x)
  {
    if IsRecv(x.inv) && x.outcome.Success? && x.outcome.json != NULL {
      var i :| 0 <= i < |rows| && Is(rows[i], site.workspace, IdemKey(site.sys.id, x.key)) && rows[i].data == x.outcome.json;
      assert RowStays(rows, rows', i);
    }
  }

  lemma ClaimOwns(rows: seq<Row>, ws: string, key: string)
    requires ClaimModel(rows, ws, key).0.Some?
    ensures Owned(ClaimModel(rows, ws, key).1, ws, key, ClaimModel(rows, ws, key).0.value)
  {
    match First(rows, ws, key)
    case Some(i) => assert Is(rows[i], ws, key);
    case None =>
      var j := First(rows, ws, "").value;
      assert Is(ClaimModel(rows, ws, key).1[j], ws, key);
  }

  /** What a recv gives out, it owns. */
  lemma RecvBacked(f: Fleet, rows: seq<Row>, site: Site, inv: Invocation, key: string, now: int, x: Execution)
    requires x.key == key && x.inv == inv && MayGive(f, rows, site, inv, key, now, x.outcome)
    ensures Backed(RowsThen(f, rows, site, inv, key, now), site, x)
  {
    if IsRecv(inv) {
      var idem := IdemKey(site.sys.id, key);
      if ClaimModel(rows, site.workspace, idem).0.Some? { ClaimOwns(rows, site.workspace, idem); }
    }
  }

  /** A new execution is the one the step ran. */
  lemma NewExecution(sys: System, s: State, l: Label, j: nat)
    requires Enabled(sys, s, l) && |s.execs| <= j < |Next(sys, s, l).execs|
    ensures Ran(s, l).Some?
    ensures var x := Next(sys, s, l).execs[j]; x.inv == Ran(s, l).value.0 && x.key == Ran(s, l).value.1 && x.outcome == l.outcome
  {
    ExecsGrow(sys, s, l);
  }

  lemma NewExecutionBacked(f: Fleet, w: World, h: Happening, j: nat)
    requires CanHappen(f, w, h) && h.Engine?
    requires |StateOf(w, h.e).execs| <= j < |StateOf(WorldNext(f, w, h), h.e).execs|
    ensures Backed(RowsNext(f, w, h), f.sites[h.e], StateOf(WorldNext(f, w, h), h.e).execs[j])
  {
    var s := StateOf(w, h.e);
    NewExecution(f.sites[h.e].sys, s, h.l, j);
    RecvBacked(f, w.rows, f.sites[h.e], Ran(s, h.l).value.0, Ran(s, h.l).value.1, h.now, StateOf(WorldNext(f, w, h), h.e).execs[j]);
  }

  lemma OldExecutions(f: Fleet, w: World, h: Happening, e: string)
    requires CanHappen(f, w, h)
    ensures StateOf(w, e).execs <= StateOf(WorldNext(f, w, h), e).execs
  {
    if h.Engine? && h.e == e { ExecsGrow(f.sites[e].sys, StateOf(w, e), h.l); }
  }

  lemma ExecsGrow(sys: System, s: State, l: Label)
    requires Enabled(sys, s, l)
    ensures s.execs <= Next(sys, s, l).execs
  {
    if l.Execute? || l.Park? {
    } else {
      assert Next(sys, s, l).execs == s.execs;
    }
  }

  lemma {:induction false} AllBacked(f: Fleet, hs: seq<Happening>, e: string, j: nat)
    requires Lawful(f, hs) && e in f.sites && j < |StateOf(WorldAfter(f, hs), e).execs|
    ensures Backed(WorldAfter(f, hs).rows, f.sites[e], StateOf(WorldAfter(f, hs), e).execs[j])
  {
    if hs != [] {
      var init, h := hs[..|hs| - 1], hs[|hs| - 1];
      var w := WorldAfter(f, init);
      if j < |StateOf(w, e).execs| {
        AllBacked(f, init, e, j);
        NextKeepsRows(f, w, h);
        OldExecutions(f, w, h, e);
        BackedStays(w.rows, RowsNext(f, w, h), f.sites[e], StateOf(w, e).execs[j]);
      } else {
        NewExecutionBacked(f, w, h, j);
      }
    }
  }

  /** Position `p` of the log records a recv that got a value. */
  ghost predicate Received(s: State, p: nat) {
    p < |s.log| && RecvAnswer(s.log[p]) && s.log[p].rpc.result != NULL
  }

  ghost predicate RecvAnswer(ev: Event) {
    ev.Result? && ev.rpc.capability == "inbox" && ev.rpc.operation == "recv"
  }

  /** The recorded answer of a recv: no error, and a message the recv owns unless it is null. */
  lemma AnswerOwned(f: Fleet, hs: seq<Happening>, e: string, p: nat)
    requires Lawful(f, hs) && e in f.sites && p < |StateOf(WorldAfter(f, hs), e).log| && RecvAnswer(StateOf(WorldAfter(f, hs), e).log[p])
    ensures var w := WorldAfter(f, hs); var rec := StateOf(w, e).log[p].rpc;
            && rec.err == "" && rec.idemKey == IdemKey(f.sites[e].sys.id, rec.callKey)
            && (exists q: Path :: Dotted(q) == rec.callKey)
            && (rec.result != NULL ==> Owned(w.rows, f.sites[e].workspace, rec.idemKey, rec.result))
  {
    var w, sys := WorldAfter(f, hs), f.sites[e].sys;
    var s := StateOf(w, e);
    OwnInv(f, hs, e);
    assert RecordOk(sys, MemoOf(s.log), s.log[p].rpc);
    var j :| 0 <= j < |s.execs| && Schedules.Yields(sys, s.execs[j], s.log[p].rpc.callKey, s.execs[j].inv, s.log[p].rpc)
             && DueInv(sys, MemoOf(s.log), s.log[p].rpc.callKey) == Some(s.execs[j].inv);
    AllBacked(f, hs, e, j);
  }

  /** Message `i` is what position `p` of execution `e`'s log records as received. */
  ghost predicate Delivers(f: Fleet, w: World, e: string, p: nat, i: nat) {
    && e in f.sites && Received(StateOf(w, e), p) && i < |w.rows|
    && Is(w.rows[i], f.sites[e].workspace, StateOf(w, e).log[p].rpc.idemKey)
    && w.rows[i].data == StateOf(w, e).log[p].rpc.result
  }

  /** Over all crashes, of any number of overlapping attempts of all executions: every value
      recorded as a recv's result is a message of the execution's workspace, and each message
      is the recorded result of at most one recv of at most one execution. */
  lemma DeliveredAtMostOnce(f: Fleet, hs: seq<Happening>)
    requires Lawful(f, hs) && forall e :: e in f.sites ==> f.sites[e].sys.id == e
    ensures var w := WorldAfter(f, hs);
            forall e, p: nat :: e in f.sites && Received(StateOf(w, e), p) ==> exists i: nat :: Delivers(f, w, e, p, i)
    ensures var w := WorldAfter(f, hs);
            forall e, p: nat, d, q: nat, i: nat :: Delivers(f, w, e, p, i) && Delivers(f, w, d, q, i) ==> e == d && p == q
  {
    var w := WorldAfter(f, hs);
    forall e, p: nat | e in f.sites && Received(StateOf(w, e), p)
      ensures exists i: nat :: Delivers(f, w, e, p, i)
    {
      AnswerOwned(f, hs, e, p);
      var rec := StateOf(w, e).log[p].rpc;
      var i: nat :| i < |w.rows| && Is(w.rows[i], f.sites[e].workspace, rec.idemKey) && w.rows[i].data == rec.result;
      assert Delivers(f, w, e, p, i);
    }
    forall e, p: nat, d, q: nat, i: nat | Delivers(f, w, e, p, i) && Delivers(f, w, d, q, i) ensures e == d && p == q
    {
      SameOwner(f, hs, e, p, d, q);
    }
  }

  lemma SameOwner(f: Fleet, hs: seq<Happening>, e: string, p: nat, d: string, q: nat)
    requires Lawful(f, hs) && e in f.sites && d in f.sites && f.sites[e].sys.id == e && f.sites[d].sys.id == d
    requires var w := WorldAfter(f, hs);
             Received(StateOf(w, e), p) && Received(StateOf(w, d), q) && StateOf(w, e).log[p].rpc.idemKey == StateOf(w, d).log[q].rpc.idemKey
    ensures e == d && p == q
  {
    var w := WorldAfter(f, hs);
    AnswerOwned(f, hs, e, p);
    AnswerOwned(f, hs, d, q);
    var a: Path :| Dotted(a) == StateOf(w, e).log[p].rpc.callKey;
    var b: Path :| Dotted(b) == StateOf(w, d).log[q].rpc.callKey;
    IdemKeyInjective(e, a, d, b);
    OwnInv(f, hs, e);
  }
}
