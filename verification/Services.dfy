/** The service object: creating, running, suspending, resuming and pumping executions. */
module Services {
  import opened Types
  import opened CallKeys
  import opened Scripts
  import opened Logs
  import opened Inboxes
  import opened Positions
  import opened Platform
  import opened Works
  import Delivery

  /** A pump pass gives up after this many rounds. */
  const MAX_PUMP_ROUNDS: nat := 1000

  /** The wake condition of execution `id`'s next call, a recv. */
  ghost predicate Wakes(c: Delivery.Codec, d: Desk, id: string, rows: seq<Row>, now: int) {
    && id in d.jobs
    && var p := Here(d.jobs[id], LogIn(d, id)).prog;
       p.Call? && Delivery.IsRecv(p.inv) && Ready(Parking(id, Workspace(id, d.jobs[id]), c.deadline(p.inv.args)), rows, now)
  }

  /** Only `id`'s log and status may differ, and its log has only grown. */
  ghost predicate Touches(d: Desk, d': Desk, id: string) {
    && d'.jobs == d.jobs
    && d'.status == d.status[id := StatusIn(d', id)]
    && (d'.logs == d.logs || d'.logs == d.logs[id := LogIn(d', id)])
    && LogIn(d, id) <= LogIn(d', id)
  }

  lemma WakesLater(c: Delivery.Codec, d: Desk, id: string, rows: seq<Row>, now: int, later: int)
    requires now <= later
    ensures Wakes(c, d, id, rows, now) ==> Wakes(c, d, id, rows, later)
  {
  }

  /** A run so far and one step more. */
  lemma StepOn(env: Env, d: Desk, e: Desk, f: Desk, a: Work, b: Work, c: Work, now: int, later: int)
    requires Touches(d, e, env.id) && Touches(e, f, env.id) && Made(env, a, b, now) && Made(env, b, c, later) && now <= later
    ensures Touches(d, f, env.id) && Made(env, a, c, later)
  {
    TouchesOn(d, e, f, env.id);
    MadeOn(env, a, b, c, now, later);
  }

  lemma TouchesOn(d: Desk, e: Desk, f: Desk, id: string)
    requires Touches(d, e, id) && Touches(e, f, id)
    ensures Touches(d, f, id)
  {
  }

  /** Script state `p` with next index `ctr` is where replay comes by on its way. */
  ghost predicate OnPath(d: Desk, id: string, p: Prog, ctr: nat) {
    && id in d.jobs && Sequential(p)
    && Here(d.jobs[id], LogIn(d, id)) == StopAt(p, ctr, d.jobs[id].granted, MemoOf(LogIn(d, id)))
    && Agrees(p, ctr, d.jobs[id].granted, MemoOf(LogIn(d, id)))
  }

  lemma StartOnPath(c: Delivery.Codec, d: Desk, id: string)
    requires Fit(c, d) && id in d.jobs
    ensures OnPath(d, id, d.jobs[id].prog, 0)
  {
    FitLog(c, d, id);
  }

  /** Replay has come further on a longer log, or nothing has happened at all. */
  ghost predicate Progress(d: Desk, d': Desk, id: string, rows: seq<Row>, rows': seq<Row>) {
    && id in d.jobs && d'.jobs == d.jobs
    && ((d' == d && rows' == rows)
        || (Here(d'.jobs[id], LogIn(d', id)).ctr > Here(d.jobs[id], LogIn(d, id)).ctr && |LogIn(d', id)| > |LogIn(d, id)|))
  }

  /** A run that began with the tables `d` and the messages `rows` has come to script state `p`. */
  ghost predicate Underway(d: Desk, d': Desk, id: string, rows: seq<Row>, rows': seq<Row>, p: Prog, ctr: nat) {
    && Touches(d, d', id) && Progress(d, d', id, rows, rows') && d'.status == d.status && d'.susps == d.susps
    && (OnPath(d', id, p, ctr) || (p == NO_CONTINUATION && id in d'.jobs && Here(d'.jobs[id], LogIn(d', id)).prog == p))
  }

  lemma UnderwayEnds(c: Delivery.Codec, d: Desk, d': Desk, id: string, rows: seq<Row>, rows': seq<Row>, p: Prog, ctr: nat, now: int)
    requires Underway(d, d', id, rows, rows', p, ctr) && p.Ret?
    ensures Scripted(d, d', id, Some(p.finish))
    ensures Wakes(c, d, id, rows, now) ==> MovedOn(d, d', id)
  {
  }

  /** The script's part of a run: ended with `finish`, or parked. */
  ghost predicate Scripted(d: Desk, d': Desk, id: string, finish: Option<Finish>) {
    && id in d.jobs && Touches(d, d', id)
    && (if finish.Some? then d'.status == d.status && d'.susps == d.susps && Here(d.jobs[id], LogIn(d', id)).prog == Ret(finish.value)
        else StatusIn(d', id) == StatusSuspended && AddsRow(d.susps, d'.susps, id))
    && Here(d.jobs[id], LogIn(d', id)).ctr >= Here(d.jobs[id], LogIn(d, id)).ctr
  }

  /** What a run does to the tables; `up`: it got past its set-up. */
  ghost predicate Ran(d: Desk, d': Desk, id: string, up: bool) {
    && id in d.jobs && Touches(d, d', id)
    && (StatusIn(d', id) == StatusRunning <==> !up)
    && (if StatusIn(d', id) == StatusSuspended then AddsRow(d.susps, d'.susps, id) else d'.susps == d.susps)
    && Here(d.jobs[id], LogIn(d', id)).ctr >= Here(d.jobs[id], LogIn(d, id)).ctr
    && (StatusIn(d', id) == StatusCompleted ==> EndsWell(d.jobs[id], LogIn(d', id)))
    && (StatusIn(d', id) == StatusFailed ==> EndsBadly(d.jobs[id], LogIn(d', id)))
  }

  /** The recorded answers take the script to its end, with a value or with an error. */
  ghost predicate EndsWell(job: Job, log: seq<Event>) {
    Here(job, log).prog.Ret? && Here(job, log).prog.finish.Done?
  }

  ghost predicate EndsBadly(job: Job, log: seq<Event>) {
    Here(job, log).prog.Ret? && Here(job, log).prog.finish.Failed?
  }

  ghost function Settled(d: Desk, id: string, finish: Finish): Desk {
    d.(status := d.status[id := if finish.Done? then StatusCompleted else StatusFailed])
  }

  lemma ScriptedRan(d: Desk, d': Desk, id: string, finish: Option<Finish>)
    requires Scripted(d, d', id, finish)
    ensures finish.None? ==> Ran(d, d', id, true)
    ensures finish.Some? ==> Ran(d, Settled(d', id, finish.value), id, true)
    ensures finish.Some? && MovedOn(d, d', id) ==> MovedOn(d, Settled(d', id, finish.value), id)
  {
    if finish.Some? {
      var e := Settled(d', id, finish.value);
      assert LogIn(e, id) == LogIn(d', id);
      assert e.status == d.status[id := StatusIn(e, id)];
    }
  }

  lemma NotRan(c: Delivery.Codec, d: Desk, id: string)
    requires Fit(c, d) && id in d.jobs && StatusIn(d, id) == StatusRunning
    ensures Ran(d, d, id, false)
  {
  }

  /** What resuming a suspended execution does. */
  ghost predicate Resumed(d: Desk, d': Desk, id: string, up: bool) {
    id in d.jobs && Touches(d, d', id) && Ran(Unpark(d, id), d', id, up)
  }

  lemma RanResumed(d: Desk, d': Desk, id: string, up: bool)
    requires Ran(Unpark(d, id), d', id, up)
    ensures Resumed(d, d', id, up)
    ensures MovedOn(Unpark(d, id), d', id) ==> MovedOn(d, d', id)
  {
    assert LogIn(Unpark(d, id), id) == LogIn(d, id);
  }

  /** The script has got past the call it was parked at. */
  ghost predicate MovedOn(d: Desk, d': Desk, id: string) {
    id in d.jobs && Here(d.jobs[id], LogIn(d', id)).ctr > Here(d.jobs[id], LogIn(d, id)).ctr && |LogIn(d', id)| > |LogIn(d, id)|
  }

  lemma SameHere(c: Delivery.Codec, d: Desk, id: string, rows: seq<Row>, now: int)
    requires id in d.jobs
    ensures Wakes(c, Unpark(d, id), id, rows, now) == Wakes(c, d, id, rows, now)
  {
  }

  lemma ProgressOn(d: Desk, e: Desk, f: Desk, id: string, r: seq<Row>, s: seq<Row>, t: seq<Row>)
    requires Progress(d, e, id, r, s) && Progress(e, f, id, s, t)
    ensures Progress(d, f, id, r, t)
  {
  }

  lemma SequentialRest(p: Prog, r: Response)
    requires Sequential(p) && p.Call?
    ensures r in p.rest ==> Sequential(p.rest[r])
  {
  }

  ghost function WithLog(d: Desk, id: string, log: seq<Event>): Desk {
    d.(logs := d.logs[id := log])
  }

  lemma FitLog(c: Delivery.Codec, d: Desk, id: string)
    requires Fit(c, d) && id in d.jobs
    ensures LogFine(d.jobs[id], LogIn(d, id))
  {
  }

  /** A log that grew and still replays. */
  lemma DeskGrows(c: Delivery.Codec, d: Desk, id: string, log: seq<Event>)
    requires Fit(c, d) && id in d.jobs && StatusIn(d, id) == StatusRunning && LogFine(d.jobs[id], log) && LogIn(d, id) <= log
    ensures Fit(c, WithLog(d, id, log)) && Touches(d, WithLog(d, id, log), id) && LogIn(WithLog(d, id, log), id) == log
  {
    LogFits(c, d, id, log);
    LogTouches(d, id, log);
  }

  lemma LogTouches(d: Desk, id: string, log: seq<Event>)
    requires LogIn(d, id) <= log && id in d.status
    ensures Touches(d, WithLog(d, id, log), id) && LogIn(WithLog(d, id, log), id) == log
  {
  }

  ghost function AnsweredDesk(d: Desk, id: string, s: Position, o: Outcome): Desk
    requires s.prog.Call? && !o.Suspended?
  {
    WithLog(d, id, Answered(id, LogIn(d, id), Itoa(s.ctr), s.prog.inv, o))
  }

  /** What an answered call leaves behind. */
  lemma AnsweredCall(c: Delivery.Codec, d: Desk, id: string, s: Position, o: Outcome)
    requires Fit(c, d) && id in d.jobs && StatusIn(d, id) == StatusRunning
    requires s == Here(d.jobs[id], LogIn(d, id)) && s.prog.Call? && !o.Suspended? && o != Failure("")
    ensures var e := AnsweredDesk(d, id, s, o); Fit(c, e) && Touches(d, e, id) && |LogIn(e, id)| > |LogIn(d, id)|
    ensures var e, r := AnsweredDesk(d, id, s, o), Live(s.prog.inv, o);
            && Here(e.jobs[id], LogIn(e, id)) == Onward(s, r, d.jobs[id].granted, MemoOf(LogIn(e, id)))
            && OnwardAgrees(s, r, d.jobs[id].granted, MemoOf(LogIn(e, id)))
  {
    var log' := Answered(id, LogIn(d, id), Itoa(s.ctr), s.prog.inv, o);
    FitLog(c, d, id);
    AnswerKeepsFine(id, d.jobs[id], LogIn(d, id), o);
    DeskGrows(c, d, id, log');
  }

  ghost predicate AddsRow(rows: seq<Parking>, rows': seq<Parking>, id: string) {
    |rows'| == |rows| + 1 && rows' == rows + [rows'[|rows|]] && rows'[|rows|].exec == id
  }

  ghost function LoggedDesk(d: Desk, id: string, s: Position): Desk
    requires s.prog.Call?
  {
    WithLog(d, id, Logged(id, LogIn(d, id), Itoa(s.ctr), s.prog.inv))
  }

  /** What a call leaves behind that makes its script park ... */
  lemma LoggedCall(c: Delivery.Codec, d: Desk, id: string, s: Position)
    requires Fit(c, d) && id in d.jobs && StatusIn(d, id) == StatusRunning
    requires s == Here(d.jobs[id], LogIn(d, id)) && s.prog.Call?
    ensures var e := LoggedDesk(d, id, s);
            Fit(c, e) && Touches(d, e, id) && Here(e.jobs[id], LogIn(e, id)) == s && StatusIn(e, id) == StatusRunning && e.susps == d.susps
  {
    var log' := Logged(id, LogIn(d, id), Itoa(s.ctr), s.prog.inv);
    FitLog(c, d, id);
    IntentKeepsFine(id, d.jobs[id], LogIn(d, id), Itoa(s.ctr), s.prog.inv);
    DeskGrows(c, d, id, log');
  }

  /** ... and the parking. */
  lemma ParkingTouches(d: Desk, e: Desk, sp: Parking)
    requires Touches(d, e, sp.exec) && PutRow(e.susps, sp) == d.susps + [sp]
    ensures var p := Park(e, sp);
            && Touches(d, p, sp.exec) && LogIn(p, sp.exec) == LogIn(e, sp.exec)
            && StatusIn(p, sp.exec) == StatusSuspended && AddsRow(d.susps, p.susps, sp.exec)
  {
    assert Park(e, sp).status == d.status[sp.exec := StatusSuspended];
  }

  lemma TouchesOthers(d: Desk, d': Desk, id: string)
    requires Touches(d, d', id)
    ensures forall k :: k != id ==> StatusIn(d', k) == StatusIn(d, k) && LogIn(d', k) == LogIn(d, k)
  {
  }

  ghost function Created(d: Desk, id: string, job: Job): Desk {
    d.(jobs := d.jobs[id := job], status := d.status[id := StatusRunning])
  }

  /** A row of the suspensions table exists exactly for the suspended executions, and it holds
      the wake condition of the recv at which replay of the log stops. */
  lemma RowIffSuspended(c: Delivery.Codec, d: Desk, id: string)
    requires Fit(c, d) && id in d.jobs
    ensures ParkedIn(d.susps, id) <==> StatusIn(d, id) == StatusSuspended
    ensures forall sp :: sp in d.susps && sp.exec == id ==> WaitsFor(c, id, d.jobs[id], LogIn(d, id), sp)
  {
    forall sp | sp in d.susps && sp.exec == id
      ensures StatusIn(d, id) == StatusSuspended && WaitsFor(c, id, d.jobs[id], LogIn(d, id), sp)
    {
      assert RowOk(c, d, sp);
    }
  }

  /** What the dispatcher may do to the tables: only suspended executions move, and only onwards; they
      end as their recorded answers do, and are left running only if a set-up failed. */
  ghost predicate Pumped(d: Desk, d': Desk, failed: bool) {
    && d'.jobs == d.jobs
    && (forall k :: StatusIn(d, k) != StatusSuspended ==> StatusIn(d', k) == StatusIn(d, k) && LogIn(d', k) == LogIn(d, k))
    && (forall k :: k in d.jobs ==> GoneOn(d, d', k))
    && (forall k :: k in d.jobs && StatusIn(d, k) == StatusSuspended ==> EndedRight(d', k, failed))
  }

  ghost predicate GoneOn(d: Desk, d': Desk, k: string)
    requires k in d.jobs
  {
    LogIn(d, k) <= LogIn(d', k) && Here(d.jobs[k], LogIn(d', k)).ctr >= Here(d.jobs[k], LogIn(d, k)).ctr
  }

  ghost predicate EndedRight(d: Desk, k: string, failed: bool) {
    && k in d.jobs
    && (StatusIn(d, k) == StatusCompleted ==> EndsWell(d.jobs[k], LogIn(d, k)))
    && (StatusIn(d, k) == StatusFailed ==> EndsBadly(d.jobs[k], LogIn(d, k)))
    && (StatusIn(d, k) == StatusRunning ==> failed)
  }

  lemma NotPumped(d: Desk)
    ensures Pumped(d, d, false)
  {
  }

  lemma PumpedOn(d: Desk, e: Desk, f: Desk, failed: bool, failed': bool)
    requires Pumped(d, e, failed) && Pumped(e, f, failed')
    ensures Pumped(d, f, failed || failed')
  {
    forall k | k in d.jobs ensures GoneOn(d, f, k) { assert GoneOn(d, e, k) && GoneOn(e, f, k); }
    forall k | k in d.jobs && StatusIn(d, k) == StatusSuspended ensures EndedRight(f, k, failed || failed') { assert EndedRight(e, k, failed); }
  }

  lemma ResumedPumped(d: Desk, d': Desk, id: string, up: bool)
    requires Resumed(d, d', id, up) && StatusIn(d, id) == StatusSuspended
    ensures Pumped(d, d', !up)
  {
    TouchesOthers(d, d', id);
    assert LogIn(Unpark(d, id), id) == LogIn(d, id);
    forall k | k in d.jobs ensures GoneOn(d, d', k) { assert k != id ==> LogIn(d', k) == LogIn(d, k); }
    forall k | k in d.jobs && StatusIn(d, k) == StatusSuspended ensures EndedRight(d', k, !up) { assert k != id ==> StatusIn(d', k) == StatusSuspended; }
  }

  /** What has moved on stays moved on. */
  lemma MovedThrough(d: Desk, e: Desk, f: Desk, id: string, failed: bool)
    requires id in d.jobs && e.jobs == d.jobs && ((Pumped(d, e, failed) && MovedOn(e, f, id)) || (MovedOn(d, e, id) && Pumped(e, f, failed)))
    ensures MovedOn(d, f, id)
  {
    if Pumped(d, e, failed) && MovedOn(e, f, id) { assert GoneOn(d, e, id); } else { assert GoneOn(e, f, id); }
  }

  /** Nobody else receives where this execution is parked. */
  ghost predicate Alone(d: Desk, sp: Parking) {
    forall k :: k in d.jobs && k != sp.exec ==> Workspace(k, d.jobs[k]) != sp.workspace
  }

  /** The row's deadline is over, or a message waits for it that nobody else can take. */
  ghost predicate Due(d: Desk, sp: Parking, rows: seq<Row>, now: int) {
    (sp.wakeAt > 0 && now >= sp.wakeAt) || (sp.workspace != "" && Depth(rows, sp.workspace) > 0 && Alone(d, sp))
  }

  /** A message to a non-empty actor wakes its parked execution. */
  lemma PostedWakes(c: Delivery.Codec, d: Desk, id: string, rows: seq<Row>, rows': seq<Row>, now: int)
    requires Fit(c, d) && id in d.jobs && StatusIn(d, id) == StatusSuspended
    requires |rows'| == |rows| + 1 && rows' == rows + [rows'[|rows|]] && Is(rows'[|rows|], d.jobs[id].actor, "")
    ensures d.jobs[id].actor != "" ==> Wakes(c, d, id, rows', now)
  {
    var sp :| sp in d.susps && sp.exec == id;
    assert RowOk(c, d, sp);
    assert rows'[..|rows|] == rows;
  }

  /** For an execution parked without deadline on an empty inbox, a posted message meets the wake
      condition exactly when the actor has a name: an unnamed actor's message goes to a workspace
      nobody receives from. */
  lemma PostReachesIff(c: Delivery.Codec, d: Desk, sp: Parking, rows: seq<Row>, n: nat, data: string, now: int)
    requires Fit(c, d) && sp in d.susps && sp.exec in d.jobs && sp.wakeAt <= 0 && Depth(rows, sp.workspace) == 0
    ensures Ready(sp, EnqueueModel(rows, n, d.jobs[sp.exec].actor, data), now) <==> d.jobs[sp.exec].actor != ""
  {
    assert RowOk(c, d, sp);
    assert EnqueueModel(rows, n, d.jobs[sp.exec].actor, data)[..|rows|] == rows;
  }

  /** A row the dispatcher finds ready is an execution whose next recv will not wait. */
  lemma RowWakes(c: Delivery.Codec, d: Desk, sp: Parking, rows: seq<Row>, now: int, later: int)
    requires Fit(c, d) && sp in d.susps && Ready(sp, rows, now) && now <= later
    ensures StatusIn(d, sp.exec) == StatusSuspended && Wakes(c, d, sp.exec, rows, later)
  {
    assert RowOk(c, d, sp);
  }

  /** The dispatcher's test is exact: it finds a parked row ready when, and only when, the very recv
      its execution waits at, whose key owns no message, would not wait if it were run now. */
  lemma ReadyIffRecvAnswers(c: Delivery.Codec, d: Desk, sp: Parking, rows: seq<Row>, now: int)
    requires Fit(c, d) && sp in d.susps
    requires var s := Here(d.jobs[sp.exec], LogIn(d, sp.exec)); forall i :: 0 <= i < |rows| ==> !Is(rows[i], sp.workspace, IdemKey(sp.exec, Itoa(s.ctr)))
    ensures var id, s := sp.exec, Here(d.jobs[sp.exec], LogIn(d, sp.exec));
            && s.prog.Call? && Delivery.IsRecv(s.prog.inv)
            && (Ready(sp, rows, now) <==>
                  !RecvModel(rows, Workspace(id, d.jobs[id]), IdemKey(id, Itoa(s.ctr)), c.deadline(s.prog.inv.args), now).0.Suspended?)
  {
    assert RowOk(c, d, sp);
    var id, s := sp.exec, Here(d.jobs[sp.exec], LogIn(d, sp.exec));
    WorkspacesDiffer(id, d.jobs[id], id, d.jobs[id]);
    RecvWaitsIff(rows, Workspace(id, d.jobs[id]), IdemKey(id, Itoa(s.ctr)), c.deadline(s.prog.inv.args), now);
  }

  // ---- How much work parked executions have left

  ghost function Sum(rows: seq<Parking>, left: map<string, int>): int {
    if rows == [] then 0 else (if rows[0].exec in left then left[rows[0].exec] else 0) + Sum(rows[1..], left)
  }

  lemma {:induction false} SumSnoc(rows: seq<Parking>, sp: Parking, left: map<string, int>)
    ensures Sum(rows + [sp], left) == Sum(rows, left) + if sp.exec in left then left[sp.exec] else 0
  {
    if rows == [] {
      assert rows + [sp] == [sp];
    } else {
      assert (rows + [sp])[1..] == rows[1..] + [sp];
      SumSnoc(rows[1..], sp, left);
    }
  }

  lemma {:induction false} SumSame(rows: seq<Parking>, id: string, left: map<string, int>, left': map<string, int>)
    requires left.Keys == left'.Keys && (forall k :: k in left && k != id ==> left'[k] == left[k]) && !ParkedIn(rows, id)
    ensures Sum(rows, left') == Sum(rows, left)
  {
    if rows != [] {
      assert rows[0] in rows && forall x :: x in rows[1..] ==> x in rows;
      SumSame(rows[1..], id, left, left');
    }
  }

  /** Dropping the row of `id`, while nothing else changes. */
  lemma {:induction false} SumDrop(rows: seq<Parking>, id: string, left: map<string, int>, left': map<string, int>)
    requires UniqueRows(rows) && left.Keys == left'.Keys && forall k :: k in left && k != id ==> left'[k] == left[k]
    requires ParkedIn(rows, id) && id in left
    ensures Sum(DropRow(rows, id), left') == Sum(rows, left) - left[id]
  {
    var rest := rows[1..];
    assert rows == [rows[0]] + rest;
    UniqueTail(rows);
    if rows[0].exec == id {
      DropAbsent(rest, id);
      SumSame(rest, id, left, left');
      assert [] + rest == rest;
    } else {
      assert ParkedIn(rest, id);
      SumDrop(rest, id, left, left');
      var kept := DropRow(rest, id);
      assert ([rows[0]] + kept)[1..] == kept;
    }
  }

  lemma UniqueTail(rows: seq<Parking>)
    requires UniqueRows(rows) && rows != []
    ensures UniqueRows(rows[1..]) && !ParkedIn(rows[1..], rows[0].exec)
  {
    var rest := rows[1..];
    assert forall i :: 0 <= i < |rest| ==> rest[i] == rows[i + 1];
    forall sp | sp in rest ensures sp.exec != rows[0].exec {
      var k :| 0 <= k < |rest| && rest[k] == sp;
    }
  }

  ghost function Left(d: Desk): map<string, int> {
    map id | id in d.jobs :: CallsLeft(d.jobs[id], LogIn(d, id))
  }

  /** Calls that all parked executions together may still make. */
  ghost function Total(d: Desk): int {
    Sum(d.susps, Left(d))
  }

  /** A suspended execution may still make at least the call it waits at. */
  lemma SuspendedHasCalls(c: Delivery.Codec, d: Desk, id: string)
    requires Fit(c, d) && id in d.jobs && StatusIn(d, id) == StatusSuspended
    ensures ParkedIn(d.susps, id) && CallsLeft(d.jobs[id], LogIn(d, id)) >= 1
  {
    var sp :| sp in d.susps && sp.exec == id;
    assert RowOk(c, d, sp);
    FitLog(c, d, id);
    StopKeeps(d.jobs[id].prog, 0, d.jobs[id].granted, MemoOf(LogIn(d, id)), d.jobs[id].calls);
  }

  lemma {:induction false} TotalBounds(c: Delivery.Codec, d: Desk, rows: seq<Parking>)
    requires Fit(c, d) && forall sp :: sp in rows ==> sp in d.susps
    ensures Sum(rows, Left(d)) >= |rows|
  {
    if rows != [] {
      assert rows[0] in rows && RowOk(c, d, rows[0]);
      SuspendedHasCalls(c, d, rows[0].exec);
      TotalBounds(c, d, rows[1..]);
    }
  }

  /** Resuming an execution that moves on, or that fails to set up, leaves less work. */
  lemma ResumedBudget(c: Delivery.Codec, d: Desk, d': Desk, id: string, up: bool)
    requires Fit(c, d) && id in d.jobs && StatusIn(d, id) == StatusSuspended && Resumed(d, d', id, up) && (up ==> MovedOn(d, d', id))
    ensures Total(d') < Total(d)
  {
    SuspendedHasCalls(c, d, id);
    var left, left' := Left(d), Left(d');
    forall k | k in left && k != id ensures left'[k] == left[k] { assert LogIn(d', k) == LogIn(d, k); }
    SumDrop(d.susps, id, left, left');
    if StatusIn(d', id) == StatusSuspended {
      SumSnoc(DropRow(d.susps, id), d'.susps[|d'.susps| - 1], left');
    }
  }

  ghost predicate OthersRemain(rows: seq<Parking>, rows': seq<Parking>, id: string) {
    forall x :: x in rows && x.exec != id ==> x in rows'
  }

  /** The rows from the i-th on are still in the table. */
  ghost predicate Remain(listed: seq<Parking>, i: nat, rows: seq<Parking>) {
    forall k :: i <= k < |listed| ==> listed[k] in rows
  }

  lemma RemainOn(listed: seq<Parking>, i: nat, rows: seq<Parking>, rows': seq<Parking>)
    requires UniqueRows(listed) && i < |listed| && Remain(listed, i, rows) && OthersRemain(rows, rows', listed[i].exec)
    ensures Remain(listed, i + 1, rows')
  {
  }

  /** Of the first i rows, none is ready. */
  ghost predicate NoneReady(listed: seq<Parking>, i: nat, rows: seq<Row>, now: int)
    requires i <= |listed|
  {
    forall k :: 0 <= k < i ==> !Ready(listed[k], rows, now)
  }

  lemma OtherRowsStay(d: Desk, d': Desk, id: string, up: bool)
    requires Resumed(d, d', id, up) && StatusIn(d, id) == StatusSuspended
    ensures OthersRemain(d.susps, d'.susps, id)
  {
    DropRowDrops(d.susps, id);
    TouchesOthers(d, d', id);
  }

  /** Replay comes by at `p`, which has an answer: it goes on with it. */
  lemma ReplayedStep(d: Desk, id: string, p: Prog, ctr: nat)
    requires OnPath(d, id, p, ctr) && p.Call? && AnswerAt(p.inv, ctr, d.jobs[id].granted, MemoOf(LogIn(d, id))).Some?
    ensures var r := AnswerAt(p.inv, ctr, d.jobs[id].granted, MemoOf(LogIn(d, id))).value;
            if r in p.rest then OnPath(d, id, p.rest[r], ctr + 1) else Here(d.jobs[id], LogIn(d, id)).prog == NO_CONTINUATION
  {
  }

  /** ... which has none: it stops here. */
  lemma StepWaits(d: Desk, id: string, p: Prog, ctr: nat)
    requires OnPath(d, id, p, ctr) && p.Call? && AnswerAt(p.inv, ctr, d.jobs[id].granted, MemoOf(LogIn(d, id))).None?
    ensures Here(d.jobs[id], LogIn(d, id)) == Position(p, ctr)
  {
  }

  /** ... and goes on from here once the call is answered. */
  lemma StepAnswered(d: Desk, d': Desk, id: string, p: Prog, ctr: nat, r: Response)
    requires OnPath(d, id, p, ctr) && p.Call? && Touches(d, d', id)
    requires Here(d'.jobs[id], LogIn(d', id)) == Onward(Position(p, ctr), r, d'.jobs[id].granted, MemoOf(LogIn(d', id)))
    requires OnwardAgrees(Position(p, ctr), r, d'.jobs[id].granted, MemoOf(LogIn(d', id)))
    ensures if r in p.rest then OnPath(d', id, p.rest[r], ctr + 1) else Here(d'.jobs[id], LogIn(d', id)).prog == NO_CONTINUATION
  {
    SequentialRest(p, r);
  }

  /** A call that has to wait leaves its execution parked where replay stopped. */
  lemma ParkedCall(c: Delivery.Codec, d: Desk, id: string, s: Position, sp: Parking)
    requires Fit(c, d) && id in d.jobs && StatusIn(d, id) == StatusRunning
    requires s == Here(d.jobs[id], LogIn(d, id)) && s.prog.Call? && Delivery.IsRecv(s.prog.inv)
    requires sp == Parking(id, Workspace(id, d.jobs[id]), c.deadline(s.prog.inv.args))
    ensures var e := LoggedDesk(d, id, s); Fit(c, e) && Parks(c, e, sp)
    ensures var p := Park(LoggedDesk(d, id, s), sp);
            && Touches(d, p, id) && Here(p.jobs[id], LogIn(p, id)) == s && StatusIn(p, id) == StatusSuspended && AddsRow(d.susps, p.susps, id)
  {
    LoggedCall(c, d, id, s);
    ParkFits(c, LoggedDesk(d, id, s), sp);
    ParkingTouches(d, LoggedDesk(d, id, s), sp);
  }

  /** A recv that has to wait was not about to wake. */
  lemma WaitsNotWakes(c: Delivery.Codec, d: Desk, id: string, rows: seq<Row>, now: int, key: string, later: int)
    requires id in d.jobs && now <= later && Here(d.jobs[id], LogIn(d, id)).prog.Call?
    requires var inv := Here(d.jobs[id], LogIn(d, id)).prog.inv;
             Waits(rows, Workspace(id, d.jobs[id]), IdemKey(id, key), c.deadline(inv.args), later)
    ensures !Wakes(c, d, id, rows, now)
  {
  }

  /** A call that parks its script changes nothing but the log, and that only by an intent. */
  lemma ParkedMade(env: Env, a: Work, b: Work, key: string, inv: Invocation, now: int, o: Outcome)
    requires Executed(env, inv, key, a, b, now, o) && o.Suspended? && inv.capability == "inbox" && b.log == Logged(env.id, a.log, key, inv)
    ensures Made(env, a, b, now)
  {
    ExecutedMailed(env, inv, key, a, b, now, o);
    LoggedMade(env, a, key, inv, now);
  }

  /** What visiting a ready row leaves. */
  lemma VisitedRight(c: Delivery.Codec, d: Desk, d': Desk, id: string, up: bool)
    requires Fit(c, d) && id in d.jobs && StatusIn(d, id) == StatusSuspended && Resumed(d, d', id, up) && (up ==> MovedOn(d, d', id))
    ensures Total(d') < Total(d) && Pumped(d, d', !up) && OthersRemain(d.susps, d'.susps, id)
  {
    ResumedBudget(c, d, d', id, up);
    OtherRowsStay(d, d', id, up);
    ResumedPumped(d, d', id, up);
  }

  /** Messages that wait in other inboxes than `own` still do. */
  ghost predicate LeavesOthers(own: string, rows: seq<Row>, rows': seq<Row>) {
    forall ws :: ws != own && Depth(rows, ws) > 0 ==> Depth(rows', ws) > 0
  }

  /** A run of one execution takes nothing from another's inbox. */
  lemma DepthsStay(env: Env, a: Work, b: Work, now: int)
    requires Made(env, a, b, now)
    ensures LeavesOthers(Workspace(env.id, env.job), a.rows, b.rows)
  {
    forall ws | ws != Workspace(env.id, env.job) && Depth(a.rows, ws) > 0 ensures Depth(b.rows, ws) > 0 {
      WaitingIff(a.rows, ws);
      var i := First(a.rows, ws, "").value;
      assert Delivery.RowStays(a.rows, b.rows, i);
      assert Is(b.rows[i], ws, "");
      WaitingIff(b.rows, ws);
    }
  }

  ghost predicate StillDue(d: Desk, listed: seq<Parking>, i: nat, rows: seq<Row>, rows': seq<Row>, now: int) {
    forall k :: i <= k < |listed| && Due(d, listed[k], rows, now) ==> Due(d, listed[k], rows', now)
  }

  ghost predicate DueWent(d: Desk, d': Desk, listed: seq<Parking>, i: nat, rows: seq<Row>, now: int)
    requires i <= |listed|
  {
    forall k :: 0 <= k < i && Due(d, listed[k], rows, now) ==> MovedOn(d, d', listed[k].exec)
  }

  lemma AllStayDue(d: Desk, listed: seq<Parking>, i: nat, first: seq<Row>, rows: seq<Row>, rows': seq<Row>, now: int)
    requires UniqueRows(listed) && i < |listed| && listed[i].exec in d.jobs
    requires LeavesOthers(Workspace(listed[i].exec, d.jobs[listed[i].exec]), rows, rows') && StillDue(d, listed, i, first, rows, now)
    ensures StillDue(d, listed, i + 1, first, rows', now)
  {
    forall k | i + 1 <= k < |listed| && Due(d, listed[k], first, now) ensures Due(d, listed[k], rows', now) {
      StaysDue(d, listed, i, k, rows, rows', now);
    }
  }

  /** A row that is due stays due while another execution runs. */
  lemma StaysDue(d: Desk, listed: seq<Parking>, i: nat, k: nat, rows: seq<Row>, rows': seq<Row>, now: int)
    requires UniqueRows(listed) && i < k < |listed| && listed[i].exec in d.jobs
    requires LeavesOthers(Workspace(listed[i].exec, d.jobs[listed[i].exec]), rows, rows')
    requires Due(d, listed[k], rows, now)
    ensures Due(d, listed[k], rows', now)
  {
  }

  class Service {
    const codec: Delivery.Codec
    const executor: (string, Invocation, nat) -> Outcome   // every executor but the inbox's
    const setupOk: nat -> bool                              // does the n-th run get past its set-up
    const decodeError: string                               // what send answers to malformed arguments
    const inbox: Inbox
    var jobs: map<string, Job>
    var status: map<string, Status>
    var logs: map<string, seq<Event>>
    var susps: seq<Parking>
    var resuming: set<string>
    var clock: int
    var runs: nat
    var executed: nat

    constructor (codec: Delivery.Codec, executor: (string, Invocation, nat) -> Outcome, setupOk: nat -> bool, decodeError: string, inbox: Inbox)
      requires decodeError != "" && forall k, inv, n :: !executor(k, inv, n).Suspended? && executor(k, inv, n) != Failure("")
      ensures Valid() && Tables() == Desk(map[], map[], map[], []) && resuming == {} && runs == 0 && this.inbox == inbox
      ensures this.codec == codec && this.setupOk == setupOk
    {
      this.codec, this.executor, this.setupOk, this.decodeError, this.inbox := codec, executor, setupOk, decodeError, inbox;
      jobs, status, logs, susps, resuming := map[], map[], map[], [], {};
      clock, runs, executed := 0, 0, 0;
    }

    function Tables(): Desk
      reads this
    {
      Desk(jobs, status, logs, susps)
    }

    /** Executors answer or fail with a message; only the inbox suspends. */
    ghost predicate Sane() {
      decodeError != "" && forall k, inv, n :: !executor(k, inv, n).Suspended? && executor(k, inv, n) != Failure("")
    }

    ghost predicate Valid()
      reads this
    {
      Sane() && Fit(codec, Tables())
    }

    function LogOf(id: string): seq<Event>
      reads this
    {
      LogIn(Tables(), id)
    }

    function StatusOf(id: string): Status
      reads this
    {
      StatusIn(Tables(), id)
    }

    /** The clock never goes back. */
    method Now() returns (t: int)
      modifies this`clock
      ensures t == clock >= old(clock)
    {
      var d: nat :| true;
      clock := clock + d;
      t := clock;
    }

    ghost function EnvOf(id: string): Env
      requires id in jobs
      reads this
    {
      Env(id, jobs[id], codec, executor, decodeError)
    }

    ghost function WorkOf(id: string): Work
      reads this, inbox
    {
      Work(LogOf(id), inbox.rows, executed)
    }

    /** The recv `inv` under `key` has to wait. */
    ghost predicate MustWait(id: string, key: string, inv: Invocation, rows: seq<Row>, now: int)
      requires id in jobs
      reads this
    {
      Delivery.IsRecv(inv) && Waits(rows, Workspace(id, jobs[id]), IdemKey(id, key), codec.deadline(inv.args), now)
    }

    /** One real run of an executor; it suspends exactly when a recv has to wait. */
    method Execute(id: string, key: string, inv: Invocation) returns (o: Outcome)
      requires Sane() && id in jobs
      modifies this`clock, this`executed, inbox
      ensures o != Failure("") && clock >= old(clock)
      ensures Executed(EnvOf(id), inv, key, old(WorkOf(id)), WorkOf(id), clock, o)
      ensures o.Suspended? <==> MustWait(id, key, inv, old(inbox.rows), clock)
      ensures o.Suspended? ==> o == Suspended(Workspace(id, jobs[id]), codec.deadline(inv.args))
    {
      if inv.capability != "inbox" {
        executed := executed + 1;
        return executor(IdemKey(id, key), inv, executed);
      }
      var ws := Workspace(id, jobs[id]);
      var now := Now();
      var letter := codec.letter(inv.args);
      if Delivery.IsSend(inv) && letter.None? { return Failure(decodeError); }
      SuspendsIff(inbox.rows, ws, IdemKey(id, key), codec.deadline(inv.args), now);
      var exe := new InboxExecutor(inbox, ws);
      var (target, data) := if letter.Some? then letter.value else ("", "");
      o := exe.Execute(inv.operation, target, data, codec.deadline(inv.args), IdemKey(id, key), now);
    }

    /** Execution of a call, with its write-ahead intent and its recorded result. */
    method Perform(id: string, key: string, inv: Invocation) returns (o: Outcome)
      requires Sane() && id in jobs
      modifies this`logs, this`clock, this`executed, inbox
      ensures o != Failure("") && clock >= old(clock)
      ensures logs == old(logs)[id := if o.Suspended? then Logged(id, old(LogOf(id)), key, inv) else Answered(id, old(LogOf(id)), key, inv, o)]
      ensures Executed(EnvOf(id), inv, key, old(WorkOf(id)), WorkOf(id), clock, o)
      ensures o.Suspended? <==> MustWait(id, key, inv, old(inbox.rows), clock)
      ensures o.Suspended? ==> o == Suspended(Workspace(id, jobs[id]), codec.deadline(inv.args))
    {
      if !inv.idempotent {
        var log := LogOf(id);
        logs := logs[id := log + [Intent(|log|, CallRecord(id, key, inv))]];
      } else {
        logs := logs[id := LogOf(id)];
      }
      o := Execute(id, key, inv);
      if !o.Suspended? {
        var log := LogOf(id);
        logs := logs[id := log + [Result(|log|, ResultRecord(id, key, inv, o))]];
      }
    }

    method SetStatus(id: string, st: Status)
      modifies this`status
      ensures status == old(status)[id := st]
    {
      status := status[id := st];
    }

    /** Parks an execution with its wake condition; when it runs and waits for just that, the
        tables stay consistent and the row is a new one. */
    method Suspend(id: string, workspace: string, wakeAt: int)
      modifies this`status, this`susps
      ensures Tables() == Park(old(Tables()), Parking(id, workspace, wakeAt)) && WorkOf(id) == old(WorkOf(id))
      ensures old(Valid() && Parks(codec, Tables(), Parking(id, workspace, wakeAt))) ==> Valid() && susps == old(susps) + [Parking(id, workspace, wakeAt)]
    {
      if Valid() && Parks(codec, Tables(), Parking(id, workspace, wakeAt)) { ParkFits(codec, Tables(), Parking(id, workspace, wakeAt)); }
      SetStatus(id, StatusSuspended);
      susps := PutRow(susps, Parking(id, workspace, wakeAt));
    }

    /** The call where replay stops, `s`, has no answer yet: run it and record the answer, or park. */
    method Call(id: string, inv: Invocation, ctr: nat, ghost s: Position) returns (r: Option<Response>)
      requires Valid() && id in jobs && StatusOf(id) == StatusRunning
      requires s == Here(jobs[id], LogOf(id)) && s.ctr == ctr && s.prog.Call? && s.prog.inv == inv
      modifies this`logs, this`clock, this`executed, this`status, this`susps, inbox
      ensures Valid() && clock >= old(clock) && Touches(old(Tables()), Tables(), id)
      ensures r.Some? ==>
                (status == old(status) && susps == old(susps) && |LogOf(id)| > |old(LogOf(id))|
                 && Here(jobs[id], LogOf(id)) == Onward(s, r.value, jobs[id].granted, MemoOf(LogOf(id)))
                 && OnwardAgrees(s, r.value, jobs[id].granted, MemoOf(LogOf(id))))
      ensures r.None? ==> Here(jobs[id], LogOf(id)) == s && StatusOf(id) == StatusSuspended && AddsRow(old(susps), susps, id)
      ensures r.None? <==> MustWait(id, Itoa(ctr), inv, old(inbox.rows), clock)
      ensures Made(EnvOf(id), old(WorkOf(id)), WorkOf(id), clock)
    {
      ghost var was, work := Tables(), WorkOf(id);
      var o := Perform(id, Itoa(ctr), inv);
      if o.Suspended? {
        assert Tables() == LoggedDesk(was, id, s);
        ParkedCall(codec, was, id, s, Parking(id, o.workspace, o.wakeAt));
        ParkedMade(EnvOf(id), work, WorkOf(id), Itoa(ctr), inv, clock, o);
        Suspend(id, o.workspace, o.wakeAt);
        return None;
      }
      assert Tables() == AnsweredDesk(was, id, s, o);
      FitLog(codec, was, id);
      AnsweredMade(EnvOf(id), work, WorkOf(id), s, o, clock);
      AnsweredCall(codec, was, id, s, o);
      r := Some(Live(inv, o));
    }

    /** Where `id`'s recorded answers take its script. */
    ghost function At(id: string): Position
      requires id in jobs
      reads this
    {
      Here(jobs[id], LogOf(id))
    }

    /** The script stands at the call `p` with index `ctr`: answer it from the log, or for real. */
    method Step(id: string, p: Prog, ctr: nat) returns (r: Option<Response>)
      requires Valid() && id in jobs && StatusOf(id) == StatusRunning && p.Call? && OnPath(Tables(), id, p, ctr)
      modifies this`logs, this`clock, this`executed, this`status, this`susps, inbox
      ensures Valid() && clock >= old(clock) && Touches(old(Tables()), Tables(), id)
      ensures r.Some? ==>
                (status == old(status) && susps == old(susps)
                 && (if r.value in p.rest then OnPath(Tables(), id, p.rest[r.value], ctr + 1) else At(id).prog == NO_CONTINUATION))
      ensures r.None? ==>
                (!Wakes(codec, old(Tables()), id, old(inbox.rows), old(clock)) && At(id) == old(At(id))
                 && StatusOf(id) == StatusSuspended && AddsRow(old(susps), susps, id))
      ensures Progress(old(Tables()), Tables(), id, old(inbox.rows), inbox.rows) || r.None?
      ensures Made(EnvOf(id), old(WorkOf(id)), WorkOf(id), clock)
    {
      r := AnswerAt(p.inv, ctr, jobs[id].granted, MemoOf(LogOf(id)));
      if r.Some? {
        ReplayedStep(Tables(), id, p, ctr);
        NothingMade(EnvOf(id), WorkOf(id), clock);
        return;
      }
      ghost var was, rows, began := Tables(), inbox.rows, clock;
      StepWaits(was, id, p, ctr);
      r := Call(id, p.inv, ctr, Position(p, ctr));
      if r.Some? { StepAnswered(was, Tables(), id, p, ctr, r.value); } else { WaitsNotWakes(codec, was, id, rows, began, Itoa(ctr), clock); }
    }

    /** One call of a run that began with the tables `was`, the messages `waiting` and `work` done: the
        run is still under way, or has parked. */
    method Turn(id: string, p: Prog, ctr: nat, ghost was: Desk, ghost waiting: seq<Row>, ghost work: Work) returns (r: Option<Response>)
      requires Valid() && id in jobs && StatusOf(id) == StatusRunning && p.Call?
      requires Underway(was, Tables(), id, waiting, inbox.rows, p, ctr) && Made(EnvOf(id), work, WorkOf(id), clock)
      modifies this`logs, this`clock, this`executed, this`status, this`susps, inbox
      ensures Valid() && clock >= old(clock) && Made(EnvOf(id), work, WorkOf(id), clock)
      ensures r.Some? && r.value in p.rest ==> Underway(was, Tables(), id, waiting, inbox.rows, p.rest[r.value], ctr + 1)
      ensures r.Some? && r.value !in p.rest ==> Underway(was, Tables(), id, waiting, inbox.rows, NO_CONTINUATION, ctr + 1)
      ensures r.None? ==> Scripted(was, Tables(), id, None) && (MovedOn(was, Tables(), id) || !Wakes(codec, was, id, waiting, old(clock)))
    {
      ghost var mid, rows, half, began := Tables(), inbox.rows, WorkOf(id), clock;
      r := Step(id, p, ctr);
      StepOn(EnvOf(id), was, mid, Tables(), work, half, WorkOf(id), began, clock);
      if r.Some? { ProgressOn(was, mid, Tables(), id, waiting, rows, inbox.rows); }
    }

    /** The script's own part of a run: replay from the top, go on with real calls, end or park. */
    method RunScript(id: string) returns (finish: Option<Finish>)
      requires Valid() && id in jobs && StatusOf(id) == StatusRunning
      modifies this`logs, this`clock, this`executed, this`status, this`susps, inbox
      ensures Valid() && clock >= old(clock) && Scripted(old(Tables()), Tables(), id, finish)
      ensures Wakes(codec, old(Tables()), id, old(inbox.rows), old(clock)) ==> MovedOn(old(Tables()), Tables(), id)
      ensures Made(EnvOf(id), old(WorkOf(id)), WorkOf(id), clock)
    {
      ghost var was, waiting, work := Tables(), inbox.rows, WorkOf(id);
      NothingMade(EnvOf(id), work, clock);
      var p, ctr := jobs[id].prog, 0;
      StartOnPath(codec, was, id);
      while p.Call?
        invariant Valid() && clock >= old(clock) && StatusOf(id) == StatusRunning
        invariant Underway(was, Tables(), id, waiting, inbox.rows, p, ctr) && Made(EnvOf(id), work, WorkOf(id), clock)
        decreases p
      {
        WakesLater(codec, was, id, waiting, old(clock), clock);
        var r := Turn(id, p, ctr, was, waiting, work);
        if r.None? { return None; }
        ctr := ctr + 1;
        if r.value !in p.rest {
          UnderwayEnds(codec, was, Tables(), id, waiting, inbox.rows, NO_CONTINUATION, ctr, old(clock));
          return Some(NO_CONTINUATION.finish);
        }
        p := p.rest[r.value];
      }
      UnderwayEnds(codec, was, Tables(), id, waiting, inbox.rows, p, ctr, old(clock));
      finish := Some(p.finish);
    }

    /** Records how an execution ended. */
    method Settle(id: string, finish: Finish)
      requires Valid() && id in jobs && StatusOf(id) == StatusRunning
      modifies this`status
      ensures Valid() && Tables() == Settled(old(Tables()), id, finish) && WorkOf(id) == old(WorkOf(id))
    {
      SettleFits(codec, Tables(), id, if finish.Done? then StatusCompleted else StatusFailed);
      SetStatus(id, if finish.Done? then StatusCompleted else StatusFailed);
    }

    /** A whole run of an execution. One that fails to set up leaves it running. */
    method RunEngine(id: string)
      requires Valid() && id in jobs && StatusOf(id) == StatusRunning
      modifies this`logs, this`clock, this`executed, this`status, this`susps, this`runs, inbox
      ensures Valid() && clock >= old(clock) && runs == old(runs) + 1 && Ran(old(Tables()), Tables(), id, setupOk(runs))
      ensures setupOk(runs) && Wakes(codec, old(Tables()), id, old(inbox.rows), old(clock)) ==> MovedOn(old(Tables()), Tables(), id)
      ensures Made(EnvOf(id), old(WorkOf(id)), WorkOf(id), clock)
    {
      runs := runs + 1;
      if !setupOk(runs) {
        NotRan(codec, Tables(), id);
        NothingMade(EnvOf(id), WorkOf(id), clock);
        return;
      }
      RunUp(id);
    }

    /** A run that has got past its set-up. */
    method RunUp(id: string)
      requires Valid() && id in jobs && StatusOf(id) == StatusRunning
      modifies this`logs, this`clock, this`executed, this`status, this`susps, inbox
      ensures Valid() && clock >= old(clock) && Ran(old(Tables()), Tables(), id, true)
      ensures Wakes(codec, old(Tables()), id, old(inbox.rows), old(clock)) ==> MovedOn(old(Tables()), Tables(), id)
      ensures Made(EnvOf(id), old(WorkOf(id)), WorkOf(id), clock)
    {
      var finish := RunScript(id);
      ScriptedRan(old(Tables()), Tables(), id, finish);
      if finish.Some? { Settle(id, finish.value); }
    }

    /** Removes the row of a suspended execution and sets it running. */
    method TakeUp(id: string)
      requires Valid() && StatusOf(id) == StatusSuspended
      modifies this`status, this`susps
      ensures Valid() && Tables() == Unpark(old(Tables()), id) && WorkOf(id) == old(WorkOf(id))
    {
      UnparkFits(codec, Tables(), id);
      susps := DropRow(susps, id);
      SetStatus(id, StatusRunning);
    }

    /** Takes a suspended execution off its parking place and runs it. */
    method Wake(id: string)
      requires Valid() && StatusOf(id) == StatusSuspended
      modifies this`logs, this`clock, this`executed, this`status, this`susps, this`runs, inbox
      ensures Valid() && clock >= old(clock) && runs == old(runs) + 1
      ensures Resumed(old(Tables()), Tables(), id, setupOk(runs))
      ensures setupOk(runs) && Wakes(codec, old(Tables()), id, old(inbox.rows), old(clock)) ==> MovedOn(old(Tables()), Tables(), id)
      ensures Made(EnvOf(id), old(WorkOf(id)), WorkOf(id), clock)
    {
      ghost var was := Tables();
      TakeUp(id);
      SameHere(codec, was, id, inbox.rows, clock);
      RunEngine(id);
      RanResumed(was, Tables(), id, setupOk(runs));
    }

    /** Resumes a suspended execution; anything else, or one being resumed already, is left alone. */
    method Resume(id: string)
      requires Valid()
      modifies this`logs, this`clock, this`executed, this`status, this`susps, this`runs, this`resuming, inbox
      ensures Valid() && clock >= old(clock) && resuming == old(resuming)
      ensures id in resuming || old(StatusOf(id)) != StatusSuspended ==>
                Tables() == old(Tables()) && inbox.rows == old(inbox.rows) && executed == old(executed) && runs == old(runs)
      ensures old(StatusOf(id)) == StatusSuspended && id !in resuming ==>
                runs == old(runs) + 1 && id in jobs && Made(EnvOf(id), old(WorkOf(id)), WorkOf(id), clock)
      ensures old(StatusOf(id)) == StatusSuspended && id !in resuming ==> Resumed(old(Tables()), Tables(), id, setupOk(runs))
      ensures old(StatusOf(id)) == StatusSuspended && id !in resuming && setupOk(runs) && Wakes(codec, old(Tables()), id, old(inbox.rows), old(clock)) ==>
                MovedOn(old(Tables()), Tables(), id)
    {
      if id in resuming { return; }
      resuming := resuming + {id};
      if StatusOf(id) != StatusSuspended {
        NoStaleRow(codec, Tables(), id);
        susps := DropRow(susps, id);
      } else {
        Wake(id);
      }
      resuming := resuming - {id};
    }

    /** Creates an execution and runs it. */
    method RunExecution(id: string, job: Job)
      requires Valid() && id !in jobs && JobOk(job)
      modifies this`jobs, this`logs, this`clock, this`executed, this`status, this`susps, this`runs, inbox
      ensures Valid() && clock >= old(clock) && runs == old(runs) + 1
      ensures Ran(Created(old(Tables()), id, job), Tables(), id, setupOk(runs))
      ensures id in jobs && jobs[id] == job && Made(EnvOf(id), Work([], old(inbox.rows), old(executed)), WorkOf(id), clock)
    {
      Create(id, job);
      RunEngine(id);
    }

    /** The row of a new execution, running, with an empty log. */
    method Create(id: string, job: Job)
      requires Valid() && id !in jobs && JobOk(job)
      modifies this`jobs, this`status
      ensures Valid() && Tables() == Created(old(Tables()), id, job) && WorkOf(id) == Work([], inbox.rows, executed)
    {
      CreateFits(codec, Tables(), id, job);
      assert id !in logs;
      jobs := jobs[id := job];
      SetStatus(id, StatusRunning);
    }

    /** Delivers a message to an execution's actor and resumes the execution if it is parked. */
    method PostMessage(id: string, data: string) returns (found: bool)
      requires Valid()
      modifies this`logs, this`clock, this`executed, this`status, this`susps, this`runs, this`resuming, inbox
      ensures Valid() && clock >= old(clock) && resuming == old(resuming) && found == (id in jobs)
      ensures !found ==> Tables() == old(Tables()) && inbox.rows == old(inbox.rows)
      ensures found && old(StatusOf(id)) == StatusSuspended && id !in resuming ==> Resumed(old(Tables()), Tables(), id, setupOk(runs))
      ensures found && old(StatusOf(id)) == StatusSuspended && id !in resuming ==>
                Made(EnvOf(id), Work(old(LogOf(id)), EnqueueModel(old(inbox.rows), old(inbox.nextId), jobs[id].actor, if data == "" then "{}" else data), old(executed)),
                     WorkOf(id), clock)
      ensures found && old(StatusOf(id)) == StatusSuspended && id !in resuming && setupOk(runs) && jobs[id].actor != "" ==>
                MovedOn(old(Tables()), Tables(), id)
      ensures old(StatusOf(id)) != StatusSuspended || id in resuming ==> Tables() == old(Tables())
      ensures found && (old(StatusOf(id)) != StatusSuspended || id in resuming) ==>
                inbox.rows == EnqueueModel(old(inbox.rows), old(inbox.nextId), jobs[id].actor, if data == "" then "{}" else data)
    {
      found := id in jobs;
      if !found { return; }
      ghost var rows := inbox.rows;
      inbox.Enqueue(jobs[id].actor, if |data| == 0 then "{}" else data);
      if StatusOf(id) == StatusSuspended { PostedWakes(codec, Tables(), id, rows, inbox.rows, clock); }
      Resume(id);
    }

    /** Some run since the `from`-th did not get past its set-up. */
    ghost predicate SetupFailed(from: nat, to: nat) {
      exists n: nat :: from < n <= to && !setupOk(n)
    }

    /** One pass of the dispatcher: resumes whatever is ready until a round finds nothing ready. */
    method Pump() returns (capped: bool, now: int)
      requires Valid() && resuming == {}
      modifies this`logs, this`clock, this`executed, this`status, this`susps, this`runs, this`resuming, inbox
      ensures Valid() && resuming == {} && old(clock) <= now <= clock && old(runs) <= runs
      ensures !capped ==> forall sp :: sp in susps ==> !Ready(sp, inbox.rows, now)
      ensures Total(Tables()) <= Total(old(Tables())) - if capped then MAX_PUMP_ROUNDS else 0
      ensures Pumped(old(Tables()), Tables(), SetupFailed(old(runs), runs))
    {
      now := clock;
      NotPumped(Tables());
      for round := 0 to MAX_PUMP_ROUNDS
        invariant Valid() && resuming == {} && old(clock) <= now <= clock && old(runs) <= runs
        invariant Total(Tables()) <= Total(old(Tables())) - round
        invariant Pumped(old(Tables()), Tables(), SetupFailed(old(runs), runs))
      {
        ghost var before, began := Tables(), runs;
        var progressed: bool;
        progressed, now := PumpRound();
        Joined(old(Tables()), before, Tables(), old(runs), began, runs);
        if !progressed { return false, now; }
      }
      capped := true;
    }

    lemma Joined(d: Desk, e: Desk, f: Desk, from: nat, mid: nat, to: nat)
      requires from <= mid <= to && Pumped(d, e, SetupFailed(from, mid)) && Pumped(e, f, SetupFailed(mid, to))
      ensures Pumped(d, f, SetupFailed(from, to))
    {
      PumpedOn(d, e, f, SetupFailed(from, mid), SetupFailed(mid, to));
      if SetupFailed(from, mid) {
        var n: nat :| from < n <= mid && !setupOk(n);
      }
    }

    /** The rows that were due, up to the i-th, have gone on after one more visit. */
    lemma Went(d: Desk, e: Desk, f: Desk, listed: seq<Parking>, i: nat, rows: seq<Row>, now: int, from: nat, mid: nat, to: nat)
      requires from <= mid <= to && i < |listed| && Pumped(d, e, SetupFailed(from, mid)) && Pumped(e, f, SetupFailed(mid, to))
      requires SetupFailed(from, mid) || DueWent(d, e, listed, i, rows, now)
      requires Due(d, listed[i], rows, now) ==> to == mid + 1 && listed[i].exec in d.jobs && (setupOk(to) ==> MovedOn(e, f, listed[i].exec))
      ensures SetupFailed(from, to) || DueWent(d, f, listed, i + 1, rows, now)
    {
      if SetupFailed(from, mid) {
        var n: nat :| from < n <= mid && !setupOk(n);
      } else if !SetupFailed(from, to) {
        forall k | 0 <= k < i + 1 && Due(d, listed[k], rows, now) ensures MovedOn(d, f, listed[k].exec) {
          if k == i {
            assert from < to;
            MovedThrough(d, e, f, listed[i].exec, SetupFailed(from, mid));
          } else {
            MovedThrough(d, e, f, listed[k].exec, SetupFailed(mid, to));
          }
        }
      }
    }

    /** One round: visits every parked execution once. Whatever was due when it began has got past its
        recv, unless a set-up failed. */
    method PumpRound() returns (progressed: bool, now: int)
      requires Valid() && resuming == {}
      modifies this`logs, this`clock, this`executed, this`status, this`susps, this`runs, this`resuming, inbox
      ensures Valid() && resuming == {} && old(clock) <= now <= clock && old(runs) <= runs
      ensures !progressed ==> Tables() == old(Tables()) && NoneReady(susps, |susps|, inbox.rows, now)
      ensures Total(Tables()) <= Total(old(Tables())) - if progressed then 1 else 0
      ensures Pumped(old(Tables()), Tables(), SetupFailed(old(runs), runs))
      ensures SetupFailed(old(runs), runs) || DueWent(old(Tables()), Tables(), old(susps), |old(susps)|, old(inbox.rows), now)
    {
      ghost var was, waiting := Tables(), inbox.rows;
      var listed := susps;
      now := Now();
      progressed := false;
      NotPumped(was);
      for i := 0 to |listed|
        invariant Valid() && resuming == {} && now <= clock && old(runs) <= runs
        invariant Remain(listed, i, susps)
        invariant !progressed ==> Tables() == was && inbox.rows == waiting
        invariant !progressed ==> NoneReady(listed, i, inbox.rows, now)
        invariant Total(Tables()) <= Total(was) - if progressed then 1 else 0
        invariant Pumped(was, Tables(), SetupFailed(old(runs), runs))
        invariant StillDue(was, listed, i, waiting, inbox.rows, now)
        invariant SetupFailed(old(runs), runs) || DueWent(was, Tables(), listed, i, waiting, now)
      {
        ghost var before, began, rows := Tables(), runs, inbox.rows;
        assert listed[i] in susps;
        var resumed := Visit(listed[i], now);
        RemainOn(listed, i, before.susps, susps);
        Joined(was, before, Tables(), old(runs), began, runs);
        AllStayDue(was, listed, i, waiting, rows, inbox.rows, now);
        Went(was, before, Tables(), listed, i, waiting, now, old(runs), began, runs);
        progressed := progressed || resumed;
      }
    }

    lemma OneRun(n: nat)
      ensures !SetupFailed(n, n) && (SetupFailed(n, n + 1) <==> !setupOk(n + 1))
    {
      if !setupOk(n + 1) { assert n < n + 1 <= n + 1 && !setupOk(n + 1); }
    }

    /** Resumes a parked execution if its wake condition holds. */
    method Visit(sp: Parking, now: int) returns (resumed: bool)
      requires Valid() && resuming == {} && sp in susps && now <= clock
      modifies this`logs, this`clock, this`executed, this`status, this`susps, this`runs, this`resuming, inbox
      ensures Valid() && resuming == {} && old(clock) <= clock
      ensures resumed == Ready(sp, old(inbox.rows), now) && runs == old(runs) + if resumed then 1 else 0
      ensures !resumed ==> Tables() == old(Tables()) && inbox.rows == old(inbox.rows)
      ensures Total(Tables()) <= Total(old(Tables())) - if resumed then 1 else 0
      ensures OthersRemain(old(susps), susps, sp.exec)
      ensures Pumped(old(Tables()), Tables(), SetupFailed(old(runs), runs))
      ensures resumed && setupOk(runs) ==> MovedOn(old(Tables()), Tables(), sp.exec)
      ensures sp.exec in jobs && LeavesOthers(Workspace(sp.exec, jobs[sp.exec]), old(inbox.rows), inbox.rows)
    {
      OneRun(runs);
      assert RowOk(codec, Tables(), sp);
      resumed := Ready(sp, inbox.rows, now);
      if resumed { VisitReady(sp, now); } else { NotPumped(Tables()); }
    }

    method VisitReady(sp: Parking, now: int)
      requires Valid() && resuming == {} && sp in susps && now <= clock && Ready(sp, inbox.rows, now)
      modifies this`logs, this`clock, this`executed, this`status, this`susps, this`runs, this`resuming, inbox
      ensures Valid() && resuming == {} && old(clock) <= clock && runs == old(runs) + 1
      ensures Total(Tables()) < Total(old(Tables())) && Pumped(old(Tables()), Tables(), !setupOk(runs))
      ensures OthersRemain(old(susps), susps, sp.exec)
      ensures setupOk(runs) ==> MovedOn(old(Tables()), Tables(), sp.exec)
      ensures sp.exec in jobs && LeavesOthers(Workspace(sp.exec, jobs[sp.exec]), old(inbox.rows), inbox.rows)
    {
      ghost var was, work := Tables(), WorkOf(sp.exec);
      RowWakes(codec, was, sp, inbox.rows, now, clock);
      Resume(sp.exec);
      VisitedRight(codec, was, Tables(), sp.exec, setupOk(runs));
      DepthsStay(EnvOf(sp.exec), work, WorkOf(sp.exec), clock);
    }
  }
}
