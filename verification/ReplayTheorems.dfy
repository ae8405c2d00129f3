/** What holds after every history of overlapping, crashing and parking attempts. */
module ReplayTheorems {
  import opened Types
  import opened CallKeys
  import opened Logs
  import opened Scripts
  import opened Replay
  import opened ReplayInv
  import opened ReplaySteps

  // ---- One writer

  /** The step writes to the log on behalf of attempt `r`. */
  ghost predicate WritesFor(l: Label, r: nat) {
    (l.Announce? || l.Record? || l.Snapshot? || l.Flush?) && l.r == r
  }

  /** The step runs an executor on behalf of attempt `r`. */
  ghost predicate ExecutesFor(l: Label, r: nat) {
    (l.Execute? || l.Park?) && l.r == r
  }

  ghost predicate RemovesOf(l: Label, r: nat) {
    (l.Crash? || l.Release?) && l.r == r
  }

  /** Only an attempt's own write changes the log, and only the holder of the lease writes. */
  lemma OnlyHolderWrites(sys: System, s: State, l: Label)
    requires Enabled(sys, s, l)
    ensures (forall r :: !WritesFor(l, r)) ==> Next(sys, s, l).log == s.log
    ensures forall r :: WritesFor(l, r) ==> Holds(s, r)
  {
    match l
    case Announce(r, _) => assert WritesFor(l, r);
    case Record(r, _, _) => assert WritesFor(l, r);
    case Snapshot(r, _, _) => assert WritesFor(l, r);
    case Flush(r, _) => assert WritesFor(l, r);
    case _ =>
  }

  /** Whoever holds the lease and has read the log knows exactly its length and its results;
      positions have no gaps; no call key has two results. */
  lemma SingleWriter(sys: System, ls: seq<Label>)
    requires Legal(sys, ls)
    ensures var s := Play(sys, ls);
            && (forall r :: Holds(s, r) && !s.attempts[r].phase.Waiting? ==> s.attempts[r].view == View(|s.log|, MemoOf(s.log)))
            && Dense(s.log) && UniqueResults(s.log)
  {
    PlayKeeps(sys, ls);
  }

  lemma TokensStayOk(sys: System, ls: seq<Label>)
    requires Legal(sys, ls)
    ensures TokensOk(Play(sys, ls))
  {
    PlayKeeps(sys, ls);
  }

  /** Steps of running attempts leave the lease and everybody's tokens alone. */
  lemma SameTokens(sys: System, s: State, l: Label)
    requires Enabled(sys, s, l) && !l.Acquire? && !l.Restart? && !l.Crash? && !l.Release?
    ensures var s' := Next(sys, s, l);
            s'.lease == s.lease && s'.attempts.Keys == s.attempts.Keys && forall r :: r in s.attempts ==> s'.attempts[r].token == s.attempts[r].token
  {
  }

  /** A lost lease cannot come back: every later token is larger. */
  lemma LostStaysLost(sys: System, s: State, l: Label, r: nat)
    requires TokensOk(s) && Enabled(sys, s, l) && r in s.attempts && !Holds(s, r) && !RemovesOf(l, r)
    ensures r in Next(sys, s, l).attempts && !Holds(Next(sys, s, l), r)
    ensures !WritesFor(l, r)
  {
    OnlyHolderWrites(sys, s, l);
    if l.Acquire? || l.Restart? || l.Crash? || l.Release? {
      LostWhileOthersCome(sys, s, l, r);
    } else {
      SameTokens(sys, s, l);
    }
  }

  lemma LostWhileOthersCome(sys: System, s: State, l: Label, r: nat)
    requires TokensOk(s) && Enabled(sys, s, l) && r in s.attempts && !Holds(s, r) && !RemovesOf(l, r)
    requires l.Acquire? || l.Restart? || l.Crash? || l.Release?
    ensures r in Next(sys, s, l).attempts && !Holds(Next(sys, s, l), r)
  {
    assert !l.Restart?;
    assert Next(sys, s, l).attempts[r] == s.attempts[r];
  }

  /** The last step of a continuation. */
  lemma LastStep(sys: System, ls: seq<Label>, more: seq<Label>)
    requires more != [] && Legal(sys, ls + more)
    ensures var init, l := more[..|more| - 1], more[|more| - 1];
            && Legal(sys, ls + init) && Enabled(sys, Play(sys, ls + init), l)
            && Play(sys, ls + more) == Next(sys, Play(sys, ls + init), l)
  {
    assert (ls + more)[..|ls + more| - 1] == ls + more[..|more| - 1];
  }

  lemma SupersededStep(sys: System, ls: seq<Label>, more: seq<Label>, r: nat)
    requires more != [] && Legal(sys, ls + more) && Legal(sys, ls + more[..|more| - 1])
    requires r in Play(sys, ls + more[..|more| - 1]).attempts && !Holds(Play(sys, ls + more[..|more| - 1]), r)
    requires !RemovesOf(more[|more| - 1], r)
    ensures r in Play(sys, ls + more).attempts && !Holds(Play(sys, ls + more), r) && !WritesFor(more[|more| - 1], r)
  {
    LastStep(sys, ls, more);
    TokensStayOk(sys, ls + more[..|more| - 1]);
    LostStaysLost(sys, Play(sys, ls + more[..|more| - 1]), more[|more| - 1], r);
  }

  /** A lease taken over stays lost, so a superseded attempt never writes again. */
  lemma {:induction false} SupersededNeverWrites(sys: System, ls: seq<Label>, more: seq<Label>, r: nat)
    requires Legal(sys, ls + more) && Legal(sys, ls)
    requires r in Play(sys, ls).attempts && !Holds(Play(sys, ls), r)
    requires forall i :: 0 <= i < |more| ==> !RemovesOf(more[i], r)
    ensures r in Play(sys, ls + more).attempts && !Holds(Play(sys, ls + more), r)
    ensures forall i :: 0 <= i < |more| ==> !WritesFor(more[i], r)
    decreases |more|
  {
    if more == [] {
      assert ls + more == ls;
    } else {
      LastStep(sys, ls, more);
      SupersededNeverWrites(sys, ls, more[..|more| - 1], r);
      SupersededStep(sys, ls, more, r);
      assert more == more[..|more| - 1] + [more[|more| - 1]];
    }
  }

  // ---- Replay refines one uninterrupted run

  /** The replay check never fails, and every attempt that finishes ends as the reference run
      that answers each call from the log's recorded results. */
  lemma ReplayRefinement(sys: System, ls: seq<Label>)
    requires Legal(sys, ls)
    ensures var s := Play(sys, ls);
            && !s.drift
            && (forall i :: 0 <= i < |s.outputs| ==> RefRun(sys.prog, [], 0, CtxOf(sys, MemoOf(s.log))) == Some(s.outputs[i]))
            && (forall i, j :: 0 <= i < |s.outputs| && 0 <= j < |s.outputs| ==> s.outputs[i] == s.outputs[j])
  {
    PlayKeeps(sys, ls);
  }

  /** When the replay check does fail: an attempt that meets the record of another call than it makes
      ends there as non-deterministic, and goes on with the record's answer otherwise. */
  lemma ChangedCallDrifts(sys: System, s: State, r: nat, a: Path, made: Invocation, o: Outcome)
    requires Leaf(s, r, a).Some? && Leaf(s, r, a).value.At? && Leaf(s, r, a).value.prog.Call? && !o.Suspended?
    requires var key := KeyAt(Leaf(s, r, a).value, a); key in s.attempts[r].view.memo && s.attempts[r].view.memo[key] == ResultRecord(sys.id, key, made, o)
    ensures Enabled(sys, s, Advance(r, a))
    ensures var n, s' := Leaf(s, r, a).value, Next(sys, s, Advance(r, a));
            && (s'.drift <==> s.drift || Changed(made, n.prog.inv))
            && (Changed(made, n.prog.inv) ==> s'.attempts[r].phase.Over? && s'.attempts[r].node == s.attempts[r].node)
            && (!Changed(made, n.prog.inv) && o.Success? ==> s' == Move(s, r, a, At(After(n.prog.rest, Ok(o.json)), n.ctr + 1)))
  {
    var n := Leaf(s, r, a).value;
    CheckPassesIff(sys.id, KeyAt(n, a), made, o, n.prog.inv);
  }

  lemma {:induction false} StaysLate(sys: System, ls: seq<Label>, more: seq<Label>, r: nat)
    requires Legal(sys, ls + more) && Legal(sys, ls)
    requires Play(sys, ls).outputs != [] && r !in Play(sys, ls).attempts
    ensures Late(sys, Play(sys, ls + more), r)
    decreases |more|
  {
    if more == [] {
      assert ls + more == ls;
    } else {
      LastStep(sys, ls, more);
      StaysLate(sys, ls, more[..|more| - 1], r);
      LateContinues(sys, ls, more, r);
    }
  }

  /** Once one attempt has finished, a later attempt executes nothing and writes nothing. */
  lemma {:induction false} RerunIsQuiet(sys: System, ls: seq<Label>, more: seq<Label>, r: nat)
    requires Legal(sys, ls + more) && Legal(sys, ls)
    requires Play(sys, ls).outputs != [] && r !in Play(sys, ls).attempts
    ensures forall i :: 0 <= i < |more| ==> !WritesFor(more[i], r) && !ExecutesFor(more[i], r)
    decreases |more|
  {
    if more != [] {
      LastStep(sys, ls, more);
      RerunIsQuiet(sys, ls, more[..|more| - 1], r);
      StaysLate(sys, ls, more[..|more| - 1], r);
      LateContinues(sys, ls, more, r);
      assert more == more[..|more| - 1] + [more[|more| - 1]];
    }
  }

  lemma LateContinues(sys: System, ls: seq<Label>, more: seq<Label>, r: nat)
    requires more != [] && Legal(sys, ls + more) && Legal(sys, ls + more[..|more| - 1])
    requires Late(sys, Play(sys, ls + more[..|more| - 1]), r)
    ensures !WritesFor(more[|more| - 1], r) && !ExecutesFor(more[|more| - 1], r) && Late(sys, Play(sys, ls + more), r)
  {
    LastStep(sys, ls, more);
    PlayKeeps(sys, ls + more[..|more| - 1]);
    LateStep(sys, Play(sys, ls + more[..|more| - 1]), more[|more| - 1], r);
  }

  /** Some attempt has finished, and attempt `r` (if it is there) read the complete log. */
  ghost predicate Late(sys: System, s: State, r: nat) {
    && s.outputs != []
    && (r in s.attempts && !s.attempts[r].phase.Waiting? ==> RefRun(sys.prog, [], 0, CtxOf(sys, s.attempts[r].base)).Some?)
  }

  /** An attempt that read a complete log has nothing in flight. */
  lemma LateIsQuiet(sys: System, s: State, l: Label, r: nat)
    requires Inv(sys, s) && Enabled(sys, s, l) && Late(sys, s, r)
    ensures !WritesFor(l, r) && !ExecutesFor(l, r)
  {
    if r in s.attempts { assert AttemptOk(sys, s.log, s.attempts[r]); }
    if (l.Announce? || l.Record? || l.Snapshot? || l.Execute?) && l.r == r { LeafFacts(sys, s, r, l.a); }
    if l.Park? && l.r == r { LeafFacts(sys, s, r, []); }
  }

  lemma LateStep(sys: System, s: State, l: Label, r: nat)
    requires Inv(sys, s) && Enabled(sys, s, l) && Late(sys, s, r)
    ensures !WritesFor(l, r) && !ExecutesFor(l, r)
    ensures Late(sys, Next(sys, s, l), r)
  {
    LateIsQuiet(sys, s, l, r);
    assert RefRun(sys.prog, [], 0, CtxOf(sys, MemoOf(s.log))) == Some(s.outputs[0]);
    BaseStays(sys, s, l, r);
  }

  /** What an attempt that has read the log started from, before and after a step. */
  ghost predicate SameBase(s: State, s': State, r: nat) {
    r in s'.attempts && !s'.attempts[r].phase.Waiting? ==>
      r in s.attempts && (if s.attempts[r].phase.Waiting? then s'.attempts[r].base == MemoOf(s.log)
                          else s'.attempts[r].base == s.attempts[r].base)
  }

  /** Only reading the log sets what an attempt started from. */
  lemma BaseStays(sys: System, s: State, l: Label, r: nat)
    requires Enabled(sys, s, l)
    ensures s.outputs <= Next(sys, s, l).outputs && SameBase(s, Next(sys, s, l), r)
  {
    if l.Acquire? || l.Read? || l.Release? || l.Crash? || l.Restart? {
      BaseComesAndGoes(sys, s, l, r);
    } else {
      BaseUnmoved(sys, s, l, r);
    }
  }

  lemma BaseComesAndGoes(sys: System, s: State, l: Label, r: nat)
    requires Enabled(sys, s, l) && (l.Acquire? || l.Read? || l.Release? || l.Crash? || l.Restart?)
    ensures s.outputs <= Next(sys, s, l).outputs && SameBase(s, Next(sys, s, l), r)
  {
  }

  lemma BaseUnmoved(sys: System, s: State, l: Label, r: nat)
    requires Enabled(sys, s, l) && !(l.Acquire? || l.Read? || l.Release? || l.Crash? || l.Restart?)
    ensures s.outputs <= Next(sys, s, l).outputs && SameBase(s, Next(sys, s, l), r)
  {
    var s' := Next(sys, s, l);
    assert l.r in s.attempts && !s.attempts[l.r].phase.Waiting?;
    assert s'.attempts.Keys == s.attempts.Keys;
    if r != l.r { assert r in s.attempts ==> s'.attempts[r] == s.attempts[r]; }
  }

  // ---- Write-ahead

  ghost function IntentsFor(log: seq<Event>, key: string): set<nat> {
    set i: nat | i < |log| && log[i].Intent? && log[i].rpc.callKey == key
  }

  ghost function ExecutionsFor(execs: seq<Execution>, key: string): set<nat> {
    set j: nat | j < |execs| && execs[j].key == key && !execs[j].inv.idempotent
  }

  lemma {:induction false} InjectionCounts(a: set<nat>, b: set<nat>, f: map<nat, nat>)
    requires forall x :: x in a ==> x in f && f[x] in b
    requires forall x, y :: x in a && y in a && f[x] == f[y] ==> x == y
    ensures |a| <= |b|
    decreases a
  {
    if a != {} {
      var x :| x in a;
      assert forall y :: y in a - {x} ==> f[y] != f[x];
      InjectionCounts(a - {x}, b - {f[x]}, f);
    }
  }

  /** Every recorded result of a non-idempotent call has its intent, with the same call key,
      argument hash and idempotency key, earlier in the log; over all attempts a key is
      executed at most as often as it was announced, always under one idempotency key. */
  lemma WriteAheadEverywhere(sys: System, ls: seq<Label>, key: string)
    requires Legal(sys, ls)
    ensures var s := Play(sys, ls);
            && (forall j :: 0 <= j < |s.log| && s.log[j].Result? ==> DueInv(sys, MemoOf(s.log), s.log[j].rpc.callKey).Some?)
            && WriteAhead(sys, s.log, MemoOf(s.log))
            && |ExecutionsFor(s.execs, key)| <= |IntentsFor(s.log, key)|
            && (forall j :: 0 <= j < |s.execs| && s.execs[j].key == key ==> s.execs[j].idemKey == IdemKey(sys.id, key))
  {
    PlayKeeps(sys, ls);
    var s := Play(sys, ls);
    assert forall j :: 0 <= j < |s.execs| ==> ExecOk(sys, s.log, s.execs[j]);
    var f := map j: nat | j in ExecutionsFor(s.execs, key) :: s.execs[j].intentAt.value;
    forall x, y | x in ExecutionsFor(s.execs, key) && y in ExecutionsFor(s.execs, key) && f[x] == f[y] ensures x == y {
      assert s.execs[x].intentAt == s.execs[y].intentAt;
    }
    InjectionCounts(ExecutionsFor(s.execs, key), IntentsFor(s.log, key), f);
    forall j | 0 <= j < |s.log| && s.log[j].Result? ensures DueInv(sys, MemoOf(s.log), s.log[j].rpc.callKey).Some? {
      assert RecordOk(sys, MemoOf(s.log), s.log[j].rpc);
    }
  }

  // ---- The SQL log is enough

  /** Whatever has happened, whatever an attempt writes next has the same effect on the SQL
      log, which only rejects used positions, as on the log with exact compare-and-set. */
  lemma SqlLogSuffices(sys: System, ls: seq<Label>, r: nat, ev: Event)
    requires Legal(sys, ls)
    requires r in Play(sys, ls).attempts && !Play(sys, ls).attempts[r].phase.Waiting?
    ensures var s := Play(sys, ls); var at := s.attempts[r]; var w := Through(s, r, ev);
            SqlWriteThrough(TableOf(s.log), |s.log|, s.lease.current, at.token, at.view, ev) == (w.ok, TableOf(w.log), w.view)
  {
    PlayKeeps(sys, ls);
    var s := Play(sys, ls);
    assert AttemptOk(sys, s.log, s.attempts[r]);
    SqlWritesAlike(s.log, s.lease.current, s.attempts[r].token, s.attempts[r].view, ev);
  }
}
