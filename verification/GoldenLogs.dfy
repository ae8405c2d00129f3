/** What an evaluation reads out of a golden run's log; and, for a sequential script, that the
    log lists its answers in the order in which the script asks. */
module GoldenLogs {
  import opened Types
  import opened CallKeys
  import opened Logs
  import opened Scripts
  import opened Replay
  import opened ReplayInv
  import opened EvalMediators
  import DeliveryOrder
  import ReplaySteps

  /** The records of a log's Result events, in order. */
  function Results(log: seq<Event>): seq<RPCRecord> {
    if log == [] then [] else
      var ev := log[|log| - 1];
      Results(log[..|log| - 1]) + if ev.Result? then [ev.rpc] else []
  }

  predicate IsRecvRecord(rec: RPCRecord) {
    rec.capability == "inbox" && rec.operation == "recv"
  }

  /** The user's recorded answers. */
  function RecvResults(recs: seq<RPCRecord>): seq<string> {
    if recs == [] then [] else
      var rec := recs[|recs| - 1];
      RecvResults(recs[..|recs| - 1]) + if IsRecvRecord(rec) then [rec.result] else []
  }

  function StepsOf(recs: seq<RPCRecord>): (steps: seq<TrajectoryStep>)
    ensures |steps| == |recs|
  {
    seq(|recs|, i requires 0 <= i < |recs| =>
          TrajectoryStep(recs[i].capability, recs[i].operation, recs[i].args, recs[i].result, recs[i].err))
  }

  lemma ResultsSnoc(log: seq<Event>, ev: Event)
    ensures Results(log + [ev]) == Results(log) + if ev.Result? then [ev.rpc] else []
  {
    assert (log + [ev])[..|log|] == log;
  }

  lemma RecvsSnoc(recs: seq<RPCRecord>, rec: RPCRecord)
    ensures RecvResults(recs + [rec]) == RecvResults(recs) + if IsRecvRecord(rec) then [rec.result] else []
  {
    assert (recs + [rec])[..|recs|] == recs;
  }

  method RecordedRecvs(events: seq<Event>) returns (out: seq<string>)
    ensures out == RecvResults(Results(events))
  {
    out := [];
    for i := 0 to |events|
      invariant out == RecvResults(Results(events[..i]))
    {
      assert events[..i + 1] == events[..i] + [events[i]];
      ResultsSnoc(events[..i], events[i]);
      var ev := events[i];
      if ev.Result? {
        RecvsSnoc(Results(events[..i]), ev.rpc);
        if ev.rpc.capability == "inbox" && ev.rpc.operation == "recv" { out := out + [ev.rpc.result]; }
      } else {
        assert Results(events[..i + 1]) == Results(events[..i]);
      }
    }
    assert events[..|events|] == events;
  }

  method CountRPCs(events: seq<Event>) returns (n: nat)
    ensures n == |Results(events)| == |set i: nat | i < |events| && events[i].Result?|
  {
    n := 0;
    for i := 0 to |events|
      invariant n == |Results(events[..i])|
    {
      assert events[..i + 1] == events[..i] + [events[i]];
      ResultsSnoc(events[..i], events[i]);
      if events[i].Result? { n := n + 1; }
    }
    assert events[..|events|] == events;
    ResultsCount(events);
  }

  lemma {:induction false} ResultsCount(events: seq<Event>)
    ensures |Results(events)| == |set i: nat | i < |events| && events[i].Result?|
  {
    if events != [] {
      var n := |events| - 1;
      ResultsCount(events[..n]);
      var before := set i: nat | i < n && events[..n][i].Result?;
      assert (set i: nat | i < |events| && events[i].Result?) == before + if events[n].Result? then {n} else {};
    }
  }

  method TrajectoryFromLog(events: seq<Event>) returns (out: seq<TrajectoryStep>)
    ensures out == StepsOf(Results(events))
  {
    out := [];
    for i := 0 to |events|
      invariant out == StepsOf(Results(events[..i]))
    {
      assert events[..i + 1] == events[..i] + [events[i]];
      ResultsSnoc(events[..i], events[i]);
      var ev := events[i];
      if ev.Result? {
        out := out + [TrajectoryStep(ev.rpc.capability, ev.rpc.operation, ev.rpc.args, ev.rpc.result, ev.rpc.err)];
      }
    }
    assert events[..|events|] == events;
  }

  /** The share of the golden run's calls that an evaluation got through. */
  function Coverage(executed: nat, goldenLen: nat): (c: real)
    ensures 0.0 <= c <= 1.0
    ensures c == 1.0 <==> executed > 0 && executed >= goldenLen
    ensures executed <= goldenLen && goldenLen > 0 ==> c * goldenLen as real == executed as real
  {
    if goldenLen == 0 then (if executed > 0 then 1.0 else 0.0)
    else if executed >= goldenLen then 1.0
    else executed as real / goldenLen as real
  }

  // ---- The order of answers in the log

  /** The recorded answers the script meets, in the order of its calls. */
  ghost function Trace(p: Prog, ctr: nat, c: Ctx): seq<RPCRecord>
    decreases p
  {
    match p
    case Ret(_) => []
    case Par(_, _) => []
    case Call(inv, rest) =>
      var known := Known(inv, Dotted([ctr]), c);
      (if inv.capability in c.granted && known.Some? then [c.memo[Dotted([ctr])]] else [])
      + (if known.Some? && known.value in rest then Trace(rest[known.value], ctr + 1, c) else [])
  }

  ghost predicate NoneFrom(ctr: nat, memo: map<string, RPCRecord>) {
    forall i: nat :: i >= ctr ==> Dotted([i]) !in memo
  }

  lemma {:induction false} TraceFresh(p: Prog, ctr: nat, c: Ctx)
    requires NoneFrom(ctr, c.memo)
    ensures Trace(p, ctr, c) == []
    decreases p
  {
    if p.Call? && p.inv.capability !in c.granted && NotGranted(p.inv) in p.rest {
      TraceFresh(p.rest[NotGranted(p.inv)], ctr + 1, c);
    }
  }

  /** Beyond the call that waits nothing is due. */
  lemma {:induction false} NothingDueBeyond(p: Prog, ctr: nat, c: Ctx, f: nat, i: nat)
    requires Sequential(p) && f < i
    requires InvAt(p, [], ctr, c, [f]).Some? && InvAt(p, [], ctr, c, [f]).value.capability in c.granted && Dotted([f]) !in c.memo
    ensures InvAt(p, [], ctr, c, [i]).None?
    decreases p
  {
    match p
    case Call(inv, rest) =>
      assert [] + [ctr] == [ctr];
      if f != ctr {
        var r := if inv.capability !in c.granted then NotGranted(inv) else Replayed(inv, c.memo[Dotted([ctr])]);
        NothingDueBeyond(rest[r], ctr + 1, c, f, i);
      }
  }

  /** Answering the call that waits appends its record to what the script meets. */
  lemma {:induction false} TraceGrows(p: Prog, ctr: nat, c: Ctx, f: nat, rec: RPCRecord)
    requires Sequential(p) && NoneFrom(f, c.memo)
    requires InvAt(p, [], ctr, c, [f]).Some? && InvAt(p, [], ctr, c, [f]).value.capability in c.granted
    ensures Trace(p, ctr, Ctx(c.granted, c.memo[Dotted([f]) := rec])) == Trace(p, ctr, c) + [rec]
    decreases p
  {
    assert [] + [ctr] == [ctr];
    if f == ctr {
      TraceAnswered(p, c, f, rec);
    } else {
      KnownStays(p.inv, c, ctr, f, rec);
      TraceGrows(p.rest[Known(p.inv, Dotted([ctr]), c).value], ctr + 1, c, f, rec);
    }
  }

  lemma TraceAnswered(p: Prog, c: Ctx, f: nat, rec: RPCRecord)
    requires p.Call? && NoneFrom(f, c.memo) && p.inv.capability in c.granted
    ensures Trace(p, f, Ctx(c.granted, c.memo[Dotted([f]) := rec])) == [rec] && Trace(p, f, c) == []
  {
    var c' := Ctx(c.granted, c.memo[Dotted([f]) := rec]);
    NoneBeyond(f, c.memo, rec);
    if Replayed(p.inv, rec) in p.rest { TraceFresh(p.rest[Replayed(p.inv, rec)], f + 1, c'); }
  }

  /** Another call's answer changes nothing here. */
  lemma KnownStays(inv: Invocation, c: Ctx, ctr: nat, f: nat, rec: RPCRecord)
    requires ctr != f
    ensures var c' := Ctx(c.granted, c.memo[Dotted([f]) := rec]);
            Known(inv, Dotted([ctr]), c') == Known(inv, Dotted([ctr]), c) && (Dotted([ctr]) in c.memo ==> c'.memo[Dotted([ctr])] == c.memo[Dotted([ctr])])
  {
    if Dotted([ctr]) == Dotted([f]) { DottedInjective([ctr], [f]); }
  }

  lemma NoneBeyond(f: nat, memo: map<string, RPCRecord>, rec: RPCRecord)
    requires NoneFrom(f, memo)
    ensures NoneFrom(f + 1, memo[Dotted([f]) := rec])
  {
    forall i: nat | i >= f + 1 ensures Dotted([i]) !in memo[Dotted([f]) := rec] {
      if Dotted([i]) == Dotted([f]) { DottedInjective([i], [f]); }
    }
  }

  /** In a sequential script's log, no key beyond the waiting call is answered. */
  lemma NoneAnsweredBeyond(sys: System, log: seq<Event>, f: nat)
    requires LogOk(sys, log) && Sequential(sys.prog)
    requires var due := InvAt(sys.prog, [], 0, CtxOf(sys, MemoOf(log)), [f]); due.Some? && due.value.capability in sys.granted
    requires Dotted([f]) !in MemoOf(log)
    ensures NoneFrom(f, MemoOf(log))
  {
    forall i: nat | i > f ensures Dotted([i]) !in MemoOf(log) {
      if Dotted([i]) in MemoOf(log) {
        var k := MemoIsRecorded(log, Dotted([i]));
        assert RecordOk(sys, MemoOf(log), log[k].rpc);
        DueAt(sys, MemoOf(log), [i]);
        NothingDueBeyond(sys.prog, 0, CtxOf(sys, MemoOf(log)), f, i);
      }
    }
  }

  /** A sequential script's due calls sit at the root. */
  lemma {:induction false} DueAtRoot(p: Prog, ctr: nat, c: Ctx, q: Path)
    requires Sequential(p) && InvAt(p, [], ctr, c, q).Some?
    ensures |q| == 1
    decreases p
  {
    match p
    case Call(inv, rest) =>
      if q[0] != ctr {
        var r := if inv.capability !in c.granted then NotGranted(inv) else Replayed(inv, c.memo[Dotted([] + [ctr])]);
        DueAtRoot(rest[r], ctr + 1, c, q);
      }
  }

  lemma StepKeepsOrder(sys: System, s: State, l: Label)
    requires Inv(sys, s) && Enabled(sys, s, l) && Sequential(sys.prog)
    requires Results(s.log) == Trace(sys.prog, 0, CtxOf(sys, MemoOf(s.log)))
    ensures var log' := Next(sys, s, l).log; Results(log') == Trace(sys.prog, 0, CtxOf(sys, MemoOf(log')))
  {
    if l.Record? {
      DeliveryOrder.RecordNext(sys, s, l);
      var q := DeliveryOrder.RecordedIsDue(sys, s, l);
      RecordKeepsOrder(sys, s.log, DeliveryOrder.Recorded(sys, s, l), q);
    } else {
      DeliveryOrder.LogNext(sys, s, l);
      var log' := Next(sys, s, l).log;
      if log' != s.log {
        ResultsSnoc(s.log, log'[|s.log|]);
        MemoSnoc(s.log, log'[|s.log|]);
      }
    }
  }

  lemma RecordKeepsOrder(sys: System, log: seq<Event>, ev: Event, q: Path)
    requires LogOk(sys, log) && Sequential(sys.prog) && ev.Result? && ev.rpc.callKey == Dotted(q) && Dotted(q) !in MemoOf(log)
    requires var due := InvAt(sys.prog, [], 0, CtxOf(sys, MemoOf(log)), q); due.Some? && due.value.capability in sys.granted
    requires Results(log) == Trace(sys.prog, 0, CtxOf(sys, MemoOf(log)))
    ensures Results(log + [ev]) == Trace(sys.prog, 0, CtxOf(sys, MemoOf(log + [ev])))
  {
    DueAtRoot(sys.prog, 0, CtxOf(sys, MemoOf(log)), q);
    assert q == [q[0]];
    NoneAnsweredBeyond(sys, log, q[0]);
    TraceGrows(sys.prog, 0, CtxOf(sys, MemoOf(log)), q[0], ev.rpc);
    ResultsSnoc(log, ev);
    MemoSnoc(log, ev);
  }

  /** In every history of a sequential script, whatever crashed or overlapped: the log lists
      the script's answers in the order of its calls. */
  lemma {:induction false} LogInCallOrder(sys: System, ls: seq<Label>)
    requires Legal(sys, ls) && Sequential(sys.prog)
    ensures Results(Play(sys, ls).log) == Trace(sys.prog, 0, CtxOf(sys, MemoOf(Play(sys, ls).log)))
    decreases |ls|
  {
    if ls == [] {
      TraceFresh(sys.prog, 0, CtxOf(sys, MemoOf([])));
    } else {
      LogInCallOrder(sys, ls[..|ls| - 1]);
      ReplaySteps.PlayKeeps(sys, ls[..|ls| - 1]);
      StepKeepsOrder(sys, Play(sys, ls[..|ls| - 1]), ls[|ls| - 1]);
    }
  }
}
