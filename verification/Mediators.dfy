/** The mediator of one attempt: memoized calls, writes through a cursor with re-sync,
    and snapshot barriers of the home directory. */
module Mediators {
  import opened Types
  import opened CallKeys
  import opened Logs
  import opened LogStores

  datatype CallResult =
    | Answer(resp: Response)
    | Parked(workspace: string, wakeAt: int)
    | NonDeterministic
    | LeaseLost
    | SnapshotFailed

  /** What becomes of the barrier after a call that changed the home directory. */
  datatype Snap = TooSoon | Taken | Broken

  /** Whether the debounce interval has elapsed decides if the sandbox is asked for a snapshot. */
  function SnapOf(since: int, debounce: int, snapshotOk: bool): Snap {
    if since < debounce then TooSoon else if snapshotOk then Taken else Broken
  }

  /** Capabilities a call can reach: the granted ones, and the shell of a sandbox. */
  function Bound(granted: set<string>, sandbox: bool): set<string> {
    if sandbox then granted + {"shell"} else granted
  }

  // ---- The mediator's state as a value

  /** Log, view, "home changed since the last barrier", and the sandbox's home directory. */
  datatype Med = Med(log: seq<Event>, view: View, dirty: bool, home: string)

  function Grown(m: Med, ev: Event): Med
    requires m.view.cursor <= |m.log|
  {
    var e := Renumber(ev, |m.log|);
    m.(log := m.log + [e], view := Sync(m.view, m.log[m.view.cursor..] + [e]))
  }

  predicate MarksDirty(sandbox: bool, inv: Invocation, o: Outcome) {
    inv.mutatesFS && o.Success? && sandbox
  }

  ghost predicate Fits(m: Med) {
    Dense(m.log) && m.view.cursor <= |m.log|
  }

  lemma GrownFits(m: Med, ev: Event)
    requires Fits(m)
    ensures Fits(Grown(m, ev)) && Grown(m, ev).view.cursor == |m.log| + 1
  {
    var e := Renumber(ev, |m.log|);
    assert (m.log + [e])[m.view.cursor..] == m.log[m.view.cursor..] + [e];
    SyncReachesEnd(m.view, m.log + [e], m.view.cursor);
  }

  /** The key is answered by running an executor. */
  predicate Runs(granted: set<string>, sandbox: bool, holder: bool, m: Med, key: string, inv: Invocation) {
    key !in m.view.memo && inv.capability in Bound(granted, sandbox) && (inv.idempotent || holder)
  }

  /** The call ends with a barrier. */
  predicate TakesBarrier(granted: set<string>, sandbox: bool, holder: bool, m: Med, key: string, inv: Invocation, o: Outcome, snap: Snap) {
    Runs(granted, sandbox, holder, m, key, inv) && holder && MarksDirty(sandbox, inv, o) && snap.Taken?
  }

  /** The intent of a call that needs one, and the home directory its executor leaves. */
  ghost function RanModel(exec: string, m: Med, key: string, inv: Invocation, home: string): (r: Med)
    requires Fits(m)
    ensures Fits(r)
  {
    GrownFits(m, Intent(0, CallRecord(exec, key, inv)));
    (if inv.idempotent then m else Grown(m, Intent(0, CallRecord(exec, key, inv)))).(home := home)
  }

  /** Recording an outcome, and the barrier if one is taken. */
  ghost function RecordModel(exec: string, sandbox: bool, m: Med, key: string, inv: Invocation, o: Outcome, snap: Snap): (r: Med)
    requires Fits(m) && !o.Suspended?
    ensures Fits(r)
  {
    GrownFits(m, Result(0, ResultRecord(exec, key, inv, o)));
    var recorded := Grown(m, Result(0, ResultRecord(exec, key, inv, o)));
    GrownFits(recorded, Barrier(0, m.home, recorded.view.cursor));
    if !MarksDirty(sandbox, inv, o) then recorded
    else if snap.Taken? then Grown(recorded, Barrier(0, m.home, recorded.view.cursor)).(dirty := false)
    else recorded.(dirty := true)
  }

  function RecordResult(sandbox: bool, inv: Invocation, o: Outcome, snap: Snap): CallResult
    requires !o.Suspended?
  {
    if MarksDirty(sandbox, inv, o) && snap.Broken? then SnapshotFailed else Answer(Live(inv, o))
  }

  /** One whole call: the executor would answer `o` and leave the home directory as `home`. */
  ghost function CallModel(exec: string, granted: set<string>, sandbox: bool, holder: bool, m: Med,
                           key: string, inv: Invocation, o: Outcome, home: string, snap: Snap): (r: (Med, CallResult))
    requires Fits(m)
    ensures Fits(r.0)
  {
    if key in m.view.memo then
      (m, if SameCall(m.view.memo[key], inv) then Answer(Replayed(inv, m.view.memo[key])) else NonDeterministic)
    else if inv.capability !in Bound(granted, sandbox) then (m, Answer(NotGranted(inv)))
    else if !inv.idempotent && !holder then (m, LeaseLost)
    else
      var ran := RanModel(exec, m, key, inv, home);
      if o.Suspended? then (ran, Parked(o.workspace, o.wakeAt))
      else if !holder then (ran, LeaseLost)
      else (RecordModel(exec, sandbox, ran, key, inv, o, snap), RecordResult(sandbox, inv, o, snap))
  }

  /** A call whose key is on record, whoever holds the lease: nothing runs and nothing changes. It is
      stopped as non-deterministic exactly when capability, method or arguments are not those of the
      call that was recorded; otherwise it gets what that call's executor gave. */
  lemma RecordedCall(exec: string, granted: set<string>, sandbox: bool, holder: bool, m: Med, key: string, made: Invocation, made_o: Outcome,
                     inv: Invocation, o: Outcome, home: string, snap: Snap)
    requires Fits(m) && !made_o.Suspended? && key in m.view.memo && m.view.memo[key] == ResultRecord(exec, key, made, made_o)
    ensures var call := CallModel(exec, granted, sandbox, holder, m, key, inv, o, home, snap);
            && call.0 == m && !Runs(granted, sandbox, holder, m, key, inv)
            && (call.1 == NonDeterministic <==> Changed(made, inv))
            && (!Changed(made, inv) && made_o.Success? ==> call.1 == Answer(Ok(made_o.json)))
            && (!Changed(made, inv) && made_o.Failure? && made_o.msg != "" ==>
                  call.1 == Answer(CallError(made.capability, made.operation, made_o.msg)))
  {
    CheckPassesIff(exec, key, made, made_o, inv);
  }

  /** A call that is not on record is refused exactly when its capability is not granted and is not
      the shell of a sandbox; a refused call changes nothing. */
  lemma RefusedIff(exec: string, granted: set<string>, sandbox: bool, m: Med, key: string, inv: Invocation, o: Outcome, home: string, snap: Snap)
    requires Fits(m) && key !in m.view.memo && o.Success?
    ensures var call := CallModel(exec, granted, sandbox, true, m, key, inv, o, home, snap);
            && (call.1 == Answer(CallError(inv.capability, inv.operation, NOT_GRANTED)) <==>
                  inv.capability !in granted && !(sandbox && inv.capability == "shell"))
            && (call.1 == Answer(CallError(inv.capability, inv.operation, NOT_GRANTED)) ==> call.0 == m)
  {
  }

  /** The final barrier of an attempt that parks. */
  ghost function FlushModel(m: Med, sandbox: bool): (r: Med)
    requires Fits(m)
    ensures Fits(r)
  {
    GrownFits(m, Barrier(0, m.home, m.view.cursor));
    if m.dirty && sandbox then Grown(m, Barrier(0, m.home, m.view.cursor)).(dirty := false) else m
  }

  // ---- The objects

  function Numbered(evs: seq<Event>, from: nat): (r: seq<Event>)
    ensures |r| == |evs|
    ensures forall i :: 0 <= i < |r| ==> r[i] == Renumber(evs[i], from + i)
  {
    if evs == [] then [] else Numbered(evs[..|evs| - 1], from) + [Renumber(evs[|evs| - 1], from + |evs| - 1)]
  }

  function Flat(batches: seq<seq<Event>>): seq<Event> {
    if batches == [] then [] else Flat(batches[..|batches| - 1]) + batches[|batches| - 1]
  }

  lemma NumberedConcat(a: seq<Event>, b: seq<Event>, from: nat)
    ensures Numbered(a + b, from) == Numbered(a, from) + Numbered(b, from + |a|)
  {
  }

  /** `m` after other writers appended `others`. */
  function Intruded(m: Med, others: seq<Event>): Med {
    m.(log := m.log + Numbered(others, |m.log|))
  }

  /** `m` with everything in the log absorbed. */
  function CaughtUp(m: Med): Med
    requires m.view.cursor <= |m.log|
  {
    m.(view := Sync(m.view, m.log[m.view.cursor..]))
  }

  lemma GrownAtEnd(m: Med, ev: Event)
    requires m.view.cursor == |m.log|
    ensures Grown(m, ev).view == Absorb(m.view, Renumber(ev, |m.log|))
  {
    assert m.log[m.view.cursor..] + [Renumber(ev, |m.log|)] == [] + [Renumber(ev, |m.log|)];
    SyncSnoc(m.view, [], Renumber(ev, |m.log|));
  }

  lemma GrownByAppend(was: Med, now: Med, ev: Event)
    requires Fits(was) && was.view.cursor == |was.log|
    requires now == was.(log := was.log + [Renumber(ev, |was.log|)], view := Absorb(was.view, Renumber(ev, |was.log|)))
    ensures now == Grown(was, ev) && Fits(now)
  {
    GrownAtEnd(was, ev);
    GrownFits(was, ev);
  }

  lemma IntrudedMore(m: Med, rivals: seq<seq<Event>>, late: nat)
    requires late < |rivals|
    ensures Intruded(m, Flat(rivals[..late + 1])) == Intruded(Intruded(m, Flat(rivals[..late])), rivals[late])
  {
    assert rivals[..late + 1][..late] == rivals[..late];
    NumberedConcat(Flat(rivals[..late]), rivals[late], |m.log|);
  }

  /** What is read on catching up depends on what has been absorbed, not on when. */
  lemma IntrudedCaughtUp(m: Med, others: seq<Event>)
    requires m.view.cursor <= |m.log|
    ensures CaughtUp(Intruded(m, others)) ==
            Med(Intruded(m, others).log, Sync(CaughtUp(m).view, Numbered(others, |m.log|)), m.dirty, m.home)
  {
    var more := Numbered(others, |m.log|);
    assert (m.log + more)[m.view.cursor..] == m.log[m.view.cursor..] + more;
    SyncConcat(m.view, m.log[m.view.cursor..], more);
  }

  lemma GrownCaughtUp(m: Med, ev: Event)
    requires m.view.cursor <= |m.log|
    ensures Grown(m, ev) == m.(log := m.log + [Renumber(ev, |m.log|)], view := Absorb(CaughtUp(m).view, Renumber(ev, |m.log|)))
  {
    SyncSnoc(m.view, m.log[m.view.cursor..], Renumber(ev, |m.log|));
  }

  lemma CaughtUpTwice(m: Med)
    requires Fits(m)
    ensures CaughtUp(m).view.cursor == |m.log| && CaughtUp(CaughtUp(m)) == CaughtUp(m)
  {
    SyncReachesEnd(m.view, m.log, m.view.cursor);
    assert m.log[|m.log|..] == [];
    if m.view.cursor == |m.log| { assert m.log[m.view.cursor..] == []; }
  }

  /** Two states that catch up to the same state write alike. */
  lemma SameGrown(x: Med, y: Med, ev: Event)
    requires x.view.cursor <= |x.log| && y.view.cursor <= |y.log| && CaughtUp(x) == CaughtUp(y)
    ensures Grown(x, ev) == Grown(y, ev)
  {
    GrownCaughtUp(x, ev);
    GrownCaughtUp(y, ev);
    assert x.log == CaughtUp(x).log == y.log;
  }

  lemma SameIntruded(x: Med, y: Med, others: seq<Event>)
    requires x.view.cursor <= |x.log| && y.view.cursor <= |y.log| && CaughtUp(x) == CaughtUp(y)
    ensures CaughtUp(Intruded(x, others)) == CaughtUp(Intruded(y, others))
  {
    IntrudedCaughtUp(x, others);
    IntrudedCaughtUp(y, others);
    assert x.log == CaughtUp(x).log == y.log;
  }

  /** A try after the same rivals' events, from two states that catch up alike. */
  lemma SameRound(x: Med, y: Med, others: seq<Event>, ev: Event)
    requires x.view.cursor <= |x.log| && y.view.cursor <= |y.log| && CaughtUp(x) == CaughtUp(y)
    ensures CaughtUp(Intruded(x, others)) == CaughtUp(Intruded(y, others))
    ensures Grown(Intruded(x, others), ev) == Grown(Intruded(y, others), ev)
  {
    SameIntruded(x, y, others);
    SameGrown(Intruded(x, others), Intruded(y, others), ev);
  }

  lemma NoRivals(m: Med)
    ensures Intruded(m, []) == m
  {
    assert m.log + Numbered([], |m.log|) == m.log;
  }

  function Batch(rivals: seq<seq<Event>>, late: nat): seq<Event> {
    if late < |rivals| then rivals[late] else []
  }

  /** One more round, from a state that catches up like the one the rivals would have made first. */
  lemma RoundMakes(was: Med, rivals: seq<seq<Event>>, late: nat, now: Med, ev: Event)
    requires late <= |rivals| && was.view.cursor <= |was.log| && now.view.cursor <= |now.log|
    requires CaughtUp(now) == CaughtUp(Intruded(was, Flat(rivals[..late])))
    ensures var full := Intruded(was, Flat(rivals[..if late < |rivals| then late + 1 else late]));
            && CaughtUp(Intruded(now, Batch(rivals, late))) == CaughtUp(full)
            && Grown(Intruded(now, Batch(rivals, late)), ev) == Grown(full, ev)
  {
    var full := Intruded(was, Flat(rivals[..late]));
    SameRound(now, full, Batch(rivals, late), ev);
    if late < |rivals| { IntrudedMore(was, rivals, late); } else { NoRivals(full); }
  }

  /** What all nodes of one attempt's call tree share. */
  class MedState {
    const exec: string
    const log: MemLog
    const leaser: MemLeaser
    const token: nat
    const granted: set<string>
    const sandbox: bool
    var cursor: nat
    var memo: map<string, RPCRecord>
    const debounce: int
    var fsDirty: bool
    var lastSnap: int
    var home: string

    ghost predicate Valid()
      reads this, log, leaser
    {
      && log.fences == leaser && leaser.Valid() && token >= 1
      && Fits(Model())
    }

    ghost function Model(): Med
      reads this, log
    {
      Med(EventsOf(log.events, exec), View(cursor, memo), fsDirty, home)
    }

    ghost predicate Holds()
      reads leaser
    {
      leaser.Current(exec) == Some(token)
    }

    /** Builds the mediator state from the log read back for replay. */
    constructor (exec: string, log: MemLog, leaser: MemLeaser, token: nat, granted: set<string>, sandbox: bool,
                 existing: seq<Event>, home: string, debounce: int, now: int)
      requires log.fences == leaser && leaser.Valid() && token >= 1
      requires Dense(EventsOf(log.events, exec)) && existing == EventsOf(log.events, exec)
      ensures Valid() && this.exec == exec && this.log == log && this.leaser == leaser && this.token == token
      ensures this.granted == granted && this.sandbox == sandbox && this.debounce == debounce && lastSnap == now
      ensures Model() == Med(existing, View(|existing|, MemoOf(existing)), false, home)
    {
      this.exec, this.log, this.leaser, this.token := exec, log, leaser, token;
      this.granted, this.sandbox, this.debounce := granted, sandbox, debounce;
      this.fsDirty, this.lastSnap, this.home := false, now, home;
      var cursor: nat, memo: map<string, RPCRecord> := 0, map[];
      for i := 0 to |existing|
        invariant View(cursor, memo) == Sync(EMPTY_VIEW, existing[..i])
      {
        assert existing[..i + 1] == existing[..i] + [existing[i]];
        SyncSnoc(EMPTY_VIEW, existing[..i], existing[i]);
        var ev := existing[i];
        if ev.seqNo + 1 > cursor { cursor := ev.seqNo + 1; }
        if ev.Result? { memo := memo[ev.rpc.callKey := ev.rpc]; }
      }
      assert existing[..|existing|] == existing && existing[0..] == existing;
      SyncReachesEnd(EMPTY_VIEW, existing, 0);
      this.cursor, this.memo := cursor, memo;
    }

    /** Takes over events that other writers got in first. */
    method Resync(events: seq<Event>)
      modifies this`cursor, this`memo
      ensures View(cursor, memo) == Sync(old(View(cursor, memo)), events)
    {
      for i := 0 to |events|
        invariant View(cursor, memo) == Sync(old(View(cursor, memo)), events[..i])
      {
        assert events[..i + 1] == events[..i] + [events[i]];
        SyncSnoc(old(View(cursor, memo)), events[..i], events[i]);
        var ev := events[i];
        if ev.seqNo + 1 > cursor { cursor := ev.seqNo + 1; }
        if ev.Result? { memo := memo[ev.rpc.callKey := ev.rpc]; }
      }
      assert events[..|events|] == events;
    }

    /** One try at the current cursor; on a conflict, catch up. */
    method TryAppend(ev: Event) returns (ok: bool)
      requires Valid() && Holds()
      modifies this`cursor, this`memo, log`events
      ensures Valid() && Holds()
      ensures ok == (old(cursor) == |old(Model()).log|)
      ensures ok ==> Model() == Grown(old(Model()), ev)
      ensures !ok ==> Model() == CaughtUp(old(Model())) && old(cursor) < cursor
      ensures forall e :: e != exec ==> EventsOf(log.events, e) == old(EventsOf(log.events, e))
    {
      ghost var was := Model();
      var r := log.Append(exec, cursor, token, ev);
      ok := r.Wrote?;
      if ok {
        Advance(r.at, ev);
        GrownByAppend(was, Model(), ev);
      } else {
        CatchUp();
      }
    }

    /** Moves past an event just written. */
    method Advance(at: nat, ev: Event)
      requires at == cursor
      modifies this`cursor, this`memo
      ensures View(cursor, memo) == Absorb(old(View(cursor, memo)), Renumber(ev, at))
    {
      cursor := at + 1;
      if ev.Result? { memo := memo[ev.rpc.callKey := ev.rpc]; }
    }

    /** Reads what others wrote since the cursor. */
    method CatchUp()
      requires Valid()
      modifies this`cursor, this`memo
      ensures Valid() && Model() == CaughtUp(old(Model())) && cursor == |Model().log|
    {
      ghost var was := Model();
      var missed := log.Read(exec, cursor);
      Resync(missed);
      SyncReachesEnd(was.view, was.log, was.view.cursor);
    }

    /** Other writers append a batch of their own. */
    method Intrude(others: seq<Event>)
      requires Valid()
      modifies log`events
      ensures Valid() && Model() == old(Model()).(log := old(Model()).log + Numbered(others, |old(Model()).log|))
      ensures forall e :: e != exec ==> EventsOf(log.events, e) == old(EventsOf(log.events, e))
    {
      var now := EventsOf(log.events, exec);
      log.events := log.events[exec := now + Numbered(others, |now|)];
    }

    /** A try before which others append `batch`: it lands, or strictly raises the cursor. */
    method Round(batch: seq<Event>, ev: Event) returns (ok: bool)
      requires Valid() && Holds()
      modifies this`cursor, this`memo, log`events
      ensures Valid() && Holds()
      ensures ok ==> Model() == Grown(Intruded(old(Model()), batch), ev)
      ensures !ok ==> CaughtUp(Model()) == CaughtUp(Intruded(old(Model()), batch)) && old(cursor) < cursor
      ensures |Model().log| == old(|Model().log|) + |batch| + if ok then 1 else 0
      ensures !ok && batch == [] ==> old(cursor) < |Model().log|
      ensures forall e :: e != exec ==> EventsOf(log.events, e) == old(EventsOf(log.events, e))
    {
      Intrude(batch);
      CaughtUpTwice(Model());
      ok := TryAppend(ev);
    }

    /** Renews the lease and appends `ev` at the cursor, re-syncing past other writers.
        `rivals[i]` is what others append before the i-th try. */
    method Append(ev: Event, rivals: seq<seq<Event>>) returns (ok: bool, late: nat)
      requires Valid()
      modifies this`cursor, this`memo, log`events
      ensures Valid() && ok == old(Holds()) && late <= |rivals|
      ensures !ok ==> Model() == old(Model())
      ensures ok ==> Model() == Grown(Intruded(old(Model()), Flat(rivals[..late])), ev)
      ensures forall e :: e != exec ==> EventsOf(log.events, e) == old(EventsOf(log.events, e))
    {
      late := 0;
      ok := leaser.Renew(exec, token);
      if !ok { return; }
      ghost var was := Model();
      NoRivals(was);
      var done := false;
      while !done
        invariant Valid() && Holds() && late <= |rivals|
        invariant !done ==> CaughtUp(Model()) == CaughtUp(Intruded(was, Flat(rivals[..late])))
        invariant done ==> Model() == Grown(Intruded(was, Flat(rivals[..late])), ev)
        invariant forall e :: e != exec ==> EventsOf(log.events, e) == old(EventsOf(log.events, e))
        decreases !done, |rivals| - late, |Model().log| - cursor
      {
        RoundMakes(was, rivals, late, Model(), ev);
        done := Round(Batch(rivals, late), ev);
        if late < |rivals| { late := late + 1; }
      }
    }

    /** Appends with nobody else writing. */
    method Write(ev: Event) returns (ok: bool)
      requires Valid()
      modifies this`cursor, this`memo, log`events
      ensures Valid() && ok == old(Holds())
      ensures Model() == if ok then Grown(old(Model()), ev) else old(Model())
      ensures forall e :: e != exec ==> EventsOf(log.events, e) == old(EventsOf(log.events, e))
    {
      ghost var was := Model();
      var late: nat;
      ok, late := Append(ev, []);
      if ok { NoRivals(was); }
    }

    /** Snapshots the home directory, if the sandbox can, and restarts the debounce clock. */
    method SnapshotBarrier(snapshotOk: bool, now: int) returns (ok: bool)
      requires Valid()
      modifies this`cursor, this`memo, this`fsDirty, this`lastSnap, log`events
      ensures Valid() && ok == (snapshotOk && old(Holds()))
      ensures Model() == if ok then Grown(old(Model()), Barrier(0, home, old(cursor))).(dirty := false) else old(Model())
      ensures lastSnap == if ok then now else old(lastSnap)
      ensures forall e :: e != exec ==> EventsOf(log.events, e) == old(EventsOf(log.events, e))
    {
      ok := snapshotOk;
      if !ok { return; }
      ok := Write(Barrier(0, home, cursor));
      if ok { fsDirty, lastSnap := false, now; }
    }

    /** Called before an attempt parks. */
    method FlushFS(snapshotOk: bool, now: int) returns (ok: bool)
      requires Valid()
      modifies this`cursor, this`memo, this`fsDirty, this`lastSnap, log`events
      ensures Valid()
      ensures ok == ((snapshotOk && old(Holds())) || !old(fsDirty) || !sandbox)
      ensures Model() == if ok then FlushModel(old(Model()), sandbox) else old(Model())
      ensures lastSnap == if ok && old(fsDirty) && sandbox then now else old(lastSnap)
    {
      ok := true;
      if fsDirty && sandbox { ok := SnapshotBarrier(snapshotOk, now); }
    }
  }

  /** One node of the call tree. */
  class Mediator {
    const st: MedState
    const prefix: string
    var ctr: nat

    constructor (st: MedState, prefix: string)
      ensures this.st == st && this.prefix == prefix && ctr == 0
    {
      this.st, this.prefix, ctr := st, prefix, 0;
    }

    method NextKey() returns (key: string)
      modifies this
      ensures key == KeyUnder(prefix, old(ctr)) && ctr == old(ctr) + 1
    {
      var idx := ctr;
      ctr := ctr + 1;
      key := if prefix == "" then Itoa(idx) else prefix + "." + Itoa(idx);
    }

    /** A node for a branch: its own subtree, at the index this node's counter gives it. */
    method Child() returns (m: Mediator)
      modifies this
      ensures fresh(m) && m.st == st && m.ctr == 0 && m.prefix == KeyUnder(prefix, old(ctr)) && ctr == old(ctr) + 1
    {
      var key := NextKey();
      m := new Mediator(st, key);
    }

    /** Records what the executor gave, with a barrier once the debounce interval has elapsed. */
    method Conclude(key: string, inv: Invocation, o: Outcome, snapshotOk: bool, now: int, later: int) returns (r: CallResult)
      requires st.Valid() && !o.Suspended?
      modifies st`cursor, st`memo, st`fsDirty, st`lastSnap, st.log`events
      ensures st.Valid()
      ensures var snap := SnapOf(now - old(st.lastSnap), st.debounce, snapshotOk);
              if !old(st.Holds()) then st.Model() == old(st.Model()) && r == LeaseLost && st.lastSnap == old(st.lastSnap)
              else st.Model() == RecordModel(st.exec, st.sandbox, old(st.Model()), key, inv, o, snap)
                   && r == RecordResult(st.sandbox, inv, o, snap)
                   && st.lastSnap == (if MarksDirty(st.sandbox, inv, o) && snap.Taken? then later else old(st.lastSnap))
      ensures forall e :: e != st.exec ==> EventsOf(st.log.events, e) == old(EventsOf(st.log.events, e))
    {
      var ok := st.Write(Result(0, ResultRecord(st.exec, key, inv, o)));
      if !ok { return LeaseLost; }
      if inv.mutatesFS && o.Success? && st.sandbox {
        st.fsDirty := true;
        if now - st.lastSnap >= st.debounce {
          ok := st.SnapshotBarrier(snapshotOk, later);
          if !ok { return SnapshotFailed; }
        }
      }
      r := Answer(Live(inv, o));
    }

    /** Runs the executor of a call that has no record, and records the outcome. */
    method Perform(key: string, inv: Invocation, o: Outcome, home: string, snapshotOk: bool, now: int, later: int) returns (r: CallResult, ran: bool)
      requires st.Valid() && key !in st.memo && inv.capability in Bound(st.granted, st.sandbox)
      modifies st`cursor, st`memo, st`fsDirty, st`lastSnap, st`home, st.log`events
      ensures st.Valid()
      ensures (st.Model(), r) == CallModel(st.exec, st.granted, st.sandbox, old(st.Holds()), old(st.Model()), key, inv, o, home,
                                           SnapOf(now - old(st.lastSnap), st.debounce, snapshotOk))
      ensures ran == (inv.idempotent || old(st.Holds()))
      ensures st.lastSnap == if TakesBarrier(st.granted, st.sandbox, old(st.Holds()), old(st.Model()), key, inv, o,
                                             SnapOf(now - old(st.lastSnap), st.debounce, snapshotOk)) then later else old(st.lastSnap)
      ensures forall e :: e != st.exec ==> EventsOf(st.log.events, e) == old(EventsOf(st.log.events, e))
    {
      ran := false;
      if !inv.idempotent {
        var announced := st.Write(Intent(0, CallRecord(st.exec, key, inv)));
        if !announced { return LeaseLost, ran; }
      }
      st.home := home;
      ran := true;
      if o.Suspended? { return Parked(o.workspace, o.wakeAt), ran; }
      r := Conclude(key, inv, o, snapshotOk, now, later);
    }

    /** A mediated call. `o` and `home` say what the executor would answer and how it would leave
        the home directory; `snapshotOk` whether the sandbox can be snapshotted; `now` and `later`
        are the clock after the record and after the barrier. */
    method Call(inv: Invocation, o: Outcome, home: string, snapshotOk: bool, now: int, later: int) returns (r: CallResult, ran: bool)
      requires st.Valid()
      modifies this, st`cursor, st`memo, st`fsDirty, st`lastSnap, st`home, st.log`events
      ensures st.Valid() && ctr == old(ctr) + 1
      ensures (st.Model(), r) == CallModel(st.exec, st.granted, st.sandbox, old(st.Holds()), old(st.Model()), KeyUnder(prefix, old(ctr)), inv, o, home,
                                           SnapOf(now - old(st.lastSnap), st.debounce, snapshotOk))
      ensures ran == Runs(st.granted, st.sandbox, old(st.Holds()), old(st.Model()), KeyUnder(prefix, old(ctr)), inv)
      ensures st.lastSnap == if TakesBarrier(st.granted, st.sandbox, old(st.Holds()), old(st.Model()), KeyUnder(prefix, old(ctr)), inv, o,
                                             SnapOf(now - old(st.lastSnap), st.debounce, snapshotOk)) then later else old(st.lastSnap)
      ensures forall e :: e != st.exec ==> EventsOf(st.log.events, e) == old(EventsOf(st.log.events, e))
    {
      var key := NextKey();
      ran := false;
      if key in st.memo {
        var rec := st.memo[key];
        if !SameCall(rec, inv) { return NonDeterministic, ran; }
        if rec.err != "" { return Answer(CallError(inv.capability, inv.operation, rec.err)), ran; }
        return Answer(Ok(rec.result)), ran;
      }
      var bound := inv.capability in st.granted;
      if !bound && inv.capability == "shell" && st.sandbox { bound := true; }
      if !bound { return Answer(NotGranted(inv)), ran; }
      r, ran := Perform(key, inv, o, home, snapshotOk, now, later);
    }
  }
}
