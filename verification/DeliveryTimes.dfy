/** When a recv answers null: not before its deadline. */
module DeliveryTimes {
  import opened Types
  import opened Replay
  import opened Inboxes
  import opened Delivery
  import Schedules

  /** Step `k` of the history ran the recv with this key and these arguments, answered it with null,
      and did so at a clock reading not before its deadline. */
  ghost predicate TimedOutAt(f: Fleet, hs: seq<Happening>, e: string, key: string, args: string, k: nat) {
    && k < |hs| && Lawful(f, hs[..k]) && hs[k].Engine? && hs[k].e == e && hs[k].l.Execute? && hs[k].l.outcome == Success(NULL)
    && Ran(StateOf(WorldAfter(f, hs[..k]), e), hs[k].l).Some?
    && var (inv, ranKey) := Ran(StateOf(WorldAfter(f, hs[..k]), e), hs[k].l).value;
       IsRecv(inv) && inv.args == args && ranKey == key && 0 < f.codec.deadline(args) <= hs[k].now
  }

  ghost predicate TimedOut(f: Fleet, hs: seq<Happening>, e: string, key: string, args: string) {
    exists k: nat :: TimedOutAt(f, hs, e, key, args, k)
  }

  /** No message of the workspace carries the payload null. */
  ghost predicate NoNulls(rows: seq<Row>, ws: string) {
    forall i :: 0 <= i < |rows| && rows[i].workspace == ws ==> rows[i].data != NULL
  }

  lemma NoNullsBefore(f: Fleet, hs: seq<Happening>, ws: string)
    requires Lawful(f, hs) && hs != [] && NoNulls(WorldAfter(f, hs).rows, ws)
    ensures NoNulls(WorldAfter(f, hs[..|hs| - 1]).rows, ws)
  {
    var w := WorldAfter(f, hs[..|hs| - 1]);
    NextKeepsRows(f, w, hs[|hs| - 1]);
    forall i | 0 <= i < |w.rows| && w.rows[i].workspace == ws ensures w.rows[i].data != NULL {
      assert RowStays(w.rows, WorldAfter(f, hs).rows, i);
    }
  }

  lemma TimedOutLater(f: Fleet, hs: seq<Happening>, e: string, key: string, args: string)
    requires hs != [] && TimedOut(f, hs[..|hs| - 1], e, key, args)
    ensures TimedOut(f, hs, e, key, args)
  {
    var init := hs[..|hs| - 1];
    var k: nat :| TimedOutAt(f, init, e, key, args, k);
    assert init[..k] == hs[..k];
    assert TimedOutAt(f, hs, e, key, args, k);
  }

  /** A recv that answers null on a table without null messages does so after its deadline. */
  lemma NullIsLate(rows: seq<Row>, ws: string, key: string, deadline: int, now: int)
    requires NoNulls(rows, ws) && RecvModel(rows, ws, key, deadline, now).0 == Success(NULL)
    ensures 0 < deadline <= now
  {
  }

  /** What a step adds to the executions of an engine. */
  lemma ExecsNext(sys: System, s: State, l: Label)
    requires Enabled(sys, s, l)
    ensures var s' := Next(sys, s, l);
            if Ran(s, l).Some? then
              |s'.execs| == |s.execs| + 1 && s'.execs[..|s.execs|] == s.execs
              && var x := s'.execs[|s.execs|]; (x.inv, x.key) == Ran(s, l).value && x.outcome == l.outcome
            else s'.execs == s.execs
  {
  }

  ghost predicate NullsTimedOut(f: Fleet, hs: seq<Happening>, e: string)
    requires Lawful(f, hs)
  {
    forall x :: x in StateOf(WorldAfter(f, hs), e).execs && IsRecv(x.inv) && x.outcome == Success(NULL) ==> TimedOut(f, hs, e, x.key, x.inv.args)
  }

  lemma RecvGave(f: Fleet, w: World, h: Happening, inv: Invocation, key: string)
    requires h.Engine? && CanHappen(f, w, h) && (h.l.Execute? || h.l.Park?) && Ran(StateOf(w, h.e), h.l) == Some((inv, key)) && IsRecv(inv)
    ensures h.l.outcome == RecvModel(w.rows, f.sites[h.e].workspace, IdemKey(f.sites[h.e].sys.id, key), f.codec.deadline(inv.args), h.now).0
  {
    assert MayGive(f, w.rows, f.sites[h.e], inv, key, h.now, h.l.outcome);
  }

  lemma ParkSuspends(sys: System, s: State, l: Label)
    requires Enabled(sys, s, l) && l.Park?
    ensures l.outcome.Suspended?
  {
  }

  lemma NewNullTimedOut(f: Fleet, hs: seq<Happening>, e: string, inv: Invocation, key: string)
    requires Lawful(f, hs) && hs != [] && e in f.sites && NoNulls(WorldAfter(f, hs[..|hs| - 1]).rows, f.sites[e].workspace)
    requires var h := hs[|hs| - 1]; h.Engine? && h.e == e && (h.l.Execute? || h.l.Park?) && Ran(StateOf(WorldAfter(f, hs[..|hs| - 1]), e), h.l) == Some((inv, key)) && h.l.outcome == Success(NULL)
    requires IsRecv(inv)
    ensures TimedOut(f, hs, e, key, inv.args)
  {
    var w, h := WorldAfter(f, hs[..|hs| - 1]), hs[|hs| - 1];
    RecvGave(f, w, h, inv, key);
    if h.l.Park? { ParkSuspends(f.sites[e].sys, StateOf(w, e), h.l); }
    NullIsLate(w.rows, f.sites[e].workspace, IdemKey(f.sites[e].sys.id, key), f.codec.deadline(inv.args), h.now);
    assert TimedOutAt(f, hs, e, key, inv.args, |hs| - 1);
  }

  lemma {:induction false} AlwaysTimedOut(f: Fleet, hs: seq<Happening>, e: string)
    requires Lawful(f, hs) && e in f.sites && NoNulls(WorldAfter(f, hs).rows, f.sites[e].workspace)
    ensures NullsTimedOut(f, hs, e)
  {
    if hs != [] {
      var init, h := hs[..|hs| - 1], hs[|hs| - 1];
      var w := WorldAfter(f, init);
      NoNullsBefore(f, hs, f.sites[e].workspace);
      AlwaysTimedOut(f, init, e);
      if h.Engine? && h.e == e { ExecsNext(f.sites[e].sys, StateOf(w, e), h.l); }
      forall x | x in StateOf(WorldAfter(f, hs), e).execs && IsRecv(x.inv) && x.outcome == Success(NULL) ensures TimedOut(f, hs, e, x.key, x.inv.args) {
        if x in StateOf(w, e).execs {
          TimedOutLater(f, hs, e, x.key, x.inv.args);
        } else {
          NewNullTimedOut(f, hs, e, x.inv, x.key);
        }
      }
    }
  }

  /** No recv gives up early. In every history in which no message of its workspace carries null, a
      recv whose recorded answer is null was run, by some attempt, at a clock reading at or past the
      deadline it asked for; one without a deadline is never answered null. */
  lemma NullAnswerIsLate(f: Fleet, hs: seq<Happening>, e: string, i: nat)
    requires Lawful(f, hs) && e in f.sites && NoNulls(WorldAfter(f, hs).rows, f.sites[e].workspace)
    requires var log := StateOf(WorldAfter(f, hs), e).log; i < |log| && RecvAnswer(log[i]) && log[i].rpc.result == NULL
    ensures var rec := StateOf(WorldAfter(f, hs), e).log[i].rpc; TimedOut(f, hs, e, rec.callKey, rec.args)
  {
    var s, sys := StateOf(WorldAfter(f, hs), e), f.sites[e].sys;
    OwnInv(f, hs, e);
    AlwaysTimedOut(f, hs, e);
    var rec := s.log[i].rpc;
    var j :| 0 <= j < |s.execs| && Schedules.Yields(sys, s.execs[j], rec.callKey, s.execs[j].inv, rec);
    assert s.execs[j] in s.execs;
  }
}
