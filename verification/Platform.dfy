/** The service that runs, parks and resumes executions: status machine, parked rows, dispatcher. */
module Platform {
  import opened Types
  import opened CallKeys
  import opened Scripts
  import opened Logs
  import opened Inboxes
  import opened Positions
  import Delivery

  datatype Status = StatusRunning | StatusCompleted | StatusFailed | StatusSuspended

  /** An execution as created: its script, capabilities and actor. */
  datatype Job = Job(prog: Prog, granted: set<string>, actor: string, calls: nat)

  /** A row of the suspensions table. */
  datatype Parking = Parking(exec: string, workspace: string, wakeAt: int)

  /** The inbox an execution receives from: its actor's, or one of its own. */
  function Workspace(id: string, job: Job): string {
    if job.actor == "" then "exec:" + id else job.actor
  }

  /** A named actor's executions share its inbox; executions without an actor have one each. */
  lemma WorkspacesDiffer(a: string, ja: Job, b: string, jb: Job)
    ensures ja.actor != "" ==> Workspace(a, ja) == ja.actor
    ensures ja.actor == "" && jb.actor == "" ==> (Workspace(a, ja) == Workspace(b, jb) <==> a == b)
    ensures Workspace(a, ja) != ""
  {
    if ja.actor == "" && jb.actor == "" {
      assert Workspace(a, ja)[5..] == a && Workspace(b, jb)[5..] == b;
    }
  }

  // ---- The suspensions table, oldest first

  predicate ParkedIn(rows: seq<Parking>, id: string) {
    exists sp :: sp in rows && sp.exec == id
  }

  /** Upsert: a row that is there keeps its place. */
  function PutRow(rows: seq<Parking>, sp: Parking): seq<Parking> {
    if rows == [] then [sp]
    else if rows[0].exec == sp.exec then [sp] + rows[1..]
    else [rows[0]] + PutRow(rows[1..], sp)
  }

  function DropRow(rows: seq<Parking>, id: string): seq<Parking> {
    if rows == [] then [] else (if rows[0].exec == id then [] else [rows[0]]) + DropRow(rows[1..], id)
  }

  ghost predicate UniqueRows(rows: seq<Parking>) {
    forall i, j :: 0 <= i < j < |rows| ==> rows[i].exec != rows[j].exec
  }

  lemma {:induction false} DropRowDrops(rows: seq<Parking>, id: string)
    ensures forall sp :: sp in DropRow(rows, id) <==> sp in rows && sp.exec != id
  {
    if rows != [] {
      DropRowDrops(rows[1..], id);
      assert rows == [rows[0]] + rows[1..];
    }
  }

  lemma {:induction false} DropRowUnique(rows: seq<Parking>, id: string)
    requires UniqueRows(rows)
    ensures UniqueRows(DropRow(rows, id))
  {
    if rows != [] {
      forall i, j | 0 <= i < j < |rows[1..]| ensures rows[1..][i].exec != rows[1..][j].exec {
        assert rows[1..][i] == rows[i + 1] && rows[1..][j] == rows[j + 1];
      }
      DropRowUnique(rows[1..], id);
      DropRowDrops(rows[1..], id);
      forall sp | sp in DropRow(rows[1..], id) ensures sp.exec != rows[0].exec {
        var k :| 0 <= k < |rows[1..]| && rows[1..][k] == sp;
        assert rows[k + 1] == sp;
      }
    }
  }

  lemma {:induction false} PutNewRow(rows: seq<Parking>, sp: Parking)
    requires !ParkedIn(rows, sp.exec)
    ensures PutRow(rows, sp) == rows + [sp]
  {
    if rows != [] {
      assert rows[0] in rows;
      assert forall x :: x in rows[1..] ==> x in rows;
      PutNewRow(rows[1..], sp);
      assert rows == [rows[0]] + rows[1..];
    }
  }

  /** An upsert: afterwards the execution has this row and no other, and every other row is as before. */
  lemma {:induction false} PutRowUpserts(rows: seq<Parking>, sp: Parking)
    requires UniqueRows(rows)
    ensures forall x :: x in PutRow(rows, sp) <==> x == sp || (x in rows && x.exec != sp.exec)
  {
    if rows != [] {
      var rest := rows[1..];
      assert rows == [rows[0]] + rest;
      assert forall i :: 0 <= i < |rest| ==> rest[i] == rows[i + 1];
      PutRowUpserts(rest, sp);
    }
  }

  /** The wake condition the dispatcher checks. */
  predicate Ready(sp: Parking, rows: seq<Row>, now: int) {
    (sp.wakeAt > 0 && now >= sp.wakeAt) || (sp.workspace != "" && Depth(rows, sp.workspace) > 0)
  }

  // ---- What a log says about an execution

  ghost function Here(job: Job, log: seq<Event>): Position {
    StopAt(job.prog, 0, job.granted, MemoOf(log))
  }

  ghost predicate Replays(job: Job, log: seq<Event>) {
    Agrees(job.prog, 0, job.granted, MemoOf(log))
  }

  ghost predicate JobOk(job: Job) {
    Sequential(job.prog) && AtMost(job.prog, job.calls)
  }

  /** The parked row asks for exactly what the script's next call, a recv, waits for. */
  ghost predicate WaitsFor(c: Delivery.Codec, id: string, job: Job, log: seq<Event>, sp: Parking) {
    var p := Here(job, log).prog;
    p.Call? && Delivery.IsRecv(p.inv) && sp == Parking(id, Workspace(id, job), c.deadline(p.inv.args))
  }

  /** Calls the script may still make. */
  ghost function CallsLeft(job: Job, log: seq<Event>): int {
    job.calls - Here(job, log).ctr
  }

  /** The log after a call that really ran and came back. */
  function Logged(id: string, log: seq<Event>, key: string, inv: Invocation): seq<Event> {
    if inv.idempotent then log else log + [Intent(|log|, CallRecord(id, key, inv))]
  }

  function Answered(id: string, log: seq<Event>, key: string, inv: Invocation, o: Outcome): seq<Event>
    requires !o.Suspended?
  {
    var ran := Logged(id, log, key, inv);
    ran + [Result(|ran|, ResultRecord(id, key, inv, o))]
  }

  lemma LoggedMemo(id: string, log: seq<Event>, key: string, inv: Invocation)
    ensures MemoOf(Logged(id, log, key, inv)) == MemoOf(log)
  {
    if !inv.idempotent { MemoSnoc(log, Intent(|log|, CallRecord(id, key, inv))); }
  }

  lemma AnsweredMemo(id: string, log: seq<Event>, key: string, inv: Invocation, o: Outcome)
    requires !o.Suspended?
    ensures MemoOf(Answered(id, log, key, inv, o)) == MemoOf(log)[key := ResultRecord(id, key, inv, o)]
  {
    LoggedMemo(id, log, key, inv);
    var ran := Logged(id, log, key, inv);
    MemoSnoc(ran, Result(|ran|, ResultRecord(id, key, inv, o)));
  }

  /** Answering the call where replay stops moves replay on by that very answer. */
  lemma AnswerAdvances(id: string, job: Job, log: seq<Event>, o: Outcome)
    requires JobOk(job) && Replays(job, log) && Here(job, log).prog.Call? && !o.Suspended? && o != Failure("")
    ensures var s := Here(job, log); var log' := Answered(id, log, Itoa(s.ctr), s.prog.inv, o); var r := Live(s.prog.inv, o);
            && Here(job, log') == Onward(s, r, job.granted, MemoOf(log'))
            && ((r in s.prog.rest ==> Agrees(s.prog.rest[r], s.ctr + 1, job.granted, MemoOf(log'))) ==> Replays(job, log'))
  {
    var s := Here(job, log);
    StopKeeps(job.prog, 0, job.granted, MemoOf(log), job.calls);
    AnsweredMemo(id, log, Itoa(s.ctr), s.prog.inv, o);
    ReplayAnswersAlike(id, Itoa(s.ctr), s.prog.inv, o);
    RecordMoves(job.prog, job.granted, MemoOf(log), ResultRecord(id, Itoa(s.ctr), s.prog.inv, o));
  }

  // ---- What every log keeps

  /** No answer is recorded past the point where replay stops. */
  ghost predicate NothingLater(job: Job, log: seq<Event>) {
    forall i: nat :: i >= Here(job, log).ctr ==> Itoa(i) !in MemoOf(log)
  }

  ghost predicate LogFine(job: Job, log: seq<Event>) {
    JobOk(job) && Replays(job, log) && NothingLater(job, log) && Dense(log) && RecordsGranted(job.granted, MemoOf(log))
  }

  /** Replay beyond an answered call finds nothing that disagrees. */
  ghost predicate OnwardAgrees(s: Position, r: Response, granted: set<string>, memo: map<string, RPCRecord>)
    requires s.prog.Call?
  {
    r in s.prog.rest ==> Agrees(s.prog.rest[r], s.ctr + 1, granted, memo)
  }

  lemma {:induction false} AgreesFresh(p: Prog, ctr: nat, granted: set<string>, memo: map<string, RPCRecord>)
    requires forall i: nat :: i >= ctr ==> Itoa(i) !in memo
    ensures Agrees(p, ctr, granted, memo)
    decreases p
  {
    if p.Call? && AnswerAt(p.inv, ctr, granted, memo).Some? {
      var r := AnswerAt(p.inv, ctr, granted, memo).value;
      if r in p.rest { AgreesFresh(p.rest[r], ctr + 1, granted, memo); }
    }
  }

  /** A call answered where replay stops keeps the log fine, and replay moves on. */
  lemma AnswerKeepsFine(id: string, job: Job, log: seq<Event>, o: Outcome)
    requires LogFine(job, log) && Here(job, log).prog.Call? && !o.Suspended? && o != Failure("")
    ensures var s := Here(job, log); var log' := Answered(id, log, Itoa(s.ctr), s.prog.inv, o);
            && Here(job, log') == Onward(s, Live(s.prog.inv, o), job.granted, MemoOf(log'))
            && OnwardAgrees(s, Live(s.prog.inv, o), job.granted, MemoOf(log'))
            && LogFine(job, log')
  {
    var s := Here(job, log);
    var log', r := Answered(id, log, Itoa(s.ctr), s.prog.inv, o), Live(s.prog.inv, o);
    AnsweredMemo(id, log, Itoa(s.ctr), s.prog.inv, o);
    NothingAfter(s.ctr, MemoOf(log), ResultRecord(id, Itoa(s.ctr), s.prog.inv, o));
    if r in s.prog.rest { AgreesFresh(s.prog.rest[r], s.ctr + 1, job.granted, MemoOf(log')); }
    StopKeeps(job.prog, 0, job.granted, MemoOf(log), job.calls);
    AnswerAdvances(id, job, log, o);
  }

  lemma NothingAfter(ctr: nat, memo: map<string, RPCRecord>, rec: RPCRecord)
    requires forall i: nat :: i >= ctr ==> Itoa(i) !in memo
    ensures forall i: nat :: i >= ctr + 1 ==> Itoa(i) !in memo[Itoa(ctr) := rec]
  {
    forall i: nat | i >= ctr + 1 ensures Itoa(i) !in memo[Itoa(ctr) := rec] {
      if Itoa(i) == Itoa(ctr) { ItoaInjective(i, ctr); }
    }
  }

  /** Where replay of a log ends is the reference run from its recorded answers. */
  lemma EndIsRefRun(job: Job, log: seq<Event>)
    requires LogFine(job, log)
    ensures var s := Here(job, log);
            RefRun(job.prog, [], 0, Ctx(job.granted, MemoOf(log))) == if s.prog.Ret? then Some(s.prog.finish) else None
  {
    StopIsRefRun(job.prog, 0, Ctx(job.granted, MemoOf(log)));
  }

  /** A write-ahead intent changes nothing for replay. */
  lemma IntentKeepsFine(id: string, job: Job, log: seq<Event>, key: string, inv: Invocation)
    requires LogFine(job, log)
    ensures Here(job, Logged(id, log, key, inv)) == Here(job, log) && LogFine(job, Logged(id, log, key, inv))
  {
    LoggedMemo(id, log, key, inv);
  }

  lemma NewLogFine(job: Job)
    requires JobOk(job)
    ensures LogFine(job, [])
  {
    AgreesFresh(job.prog, 0, job.granted, MemoOf([]));
  }

  // ---- The service's tables

  datatype Desk = Desk(jobs: map<string, Job>, status: map<string, Status>, logs: map<string, seq<Event>>, susps: seq<Parking>)

  function LogIn(d: Desk, id: string): seq<Event> {
    if id in d.logs then d.logs[id] else []
  }

  function StatusIn(d: Desk, id: string): Status {
    if id in d.status then d.status[id] else StatusRunning
  }

  ghost predicate RowOk(c: Delivery.Codec, d: Desk, sp: Parking) {
    sp.exec in d.jobs && StatusIn(d, sp.exec) == StatusSuspended && WaitsFor(c, sp.exec, d.jobs[sp.exec], LogIn(d, sp.exec), sp)
  }

  /** The parked rows are exactly the suspended executions, one row each, waiting for the
      script's next recv; every log replays its script. */
  ghost predicate Fit(c: Delivery.Codec, d: Desk) {
    && d.status.Keys == d.jobs.Keys && d.logs.Keys <= d.jobs.Keys
    && FitLogs(d) && FitRows(c, d)
  }

  ghost predicate FitLogs(d: Desk) {
    forall id :: id in d.jobs ==> LogFine(d.jobs[id], LogIn(d, id))
  }

  ghost predicate FitRows(c: Delivery.Codec, d: Desk) {
    && UniqueRows(d.susps)
    && (forall sp :: sp in d.susps ==> RowOk(c, d, sp))
    && AllParked(d)
  }

  lemma SameLogs(d: Desk, d': Desk)
    requires FitLogs(d) && d'.jobs == d.jobs && d'.logs == d.logs
    ensures FitLogs(d')
  {
    forall id | id in d'.jobs ensures LogFine(d'.jobs[id], LogIn(d', id)) { assert LogIn(d', id) == LogIn(d, id); }
  }

  lemma NotParked(c: Delivery.Codec, d: Desk, id: string)
    requires Fit(c, d) && StatusIn(d, id) != StatusSuspended
    ensures !ParkedIn(d.susps, id)
  {
    forall sp | sp in d.susps ensures sp.exec != id { assert RowOk(c, d, sp); }
  }

  ghost function Park(d: Desk, sp: Parking): Desk {
    d.(status := d.status[sp.exec := StatusSuspended], susps := PutRow(d.susps, sp))
  }

  /** The row asks for what its execution, not parked yet, waits for. */
  ghost predicate Parks(c: Delivery.Codec, d: Desk, sp: Parking) {
    sp.exec in d.jobs && StatusIn(d, sp.exec) != StatusSuspended && WaitsFor(c, sp.exec, d.jobs[sp.exec], LogIn(d, sp.exec), sp)
  }

  lemma RowStaysOk(c: Delivery.Codec, d: Desk, d': Desk, sp: Parking)
    requires RowOk(c, d, sp) && StatusIn(d', sp.exec) == StatusIn(d, sp.exec)
    requires d'.jobs == d.jobs && LogIn(d', sp.exec) == LogIn(d, sp.exec)
    ensures RowOk(c, d', sp)
  {
  }

  ghost predicate AllParked(d: Desk) {
    forall id :: id in d.jobs && StatusIn(d, id) == StatusSuspended ==> ParkedIn(d.susps, id)
  }

  lemma ParkParks(d: Desk, sp: Parking)
    requires AllParked(d) && !ParkedIn(d.susps, sp.exec)
    ensures AllParked(Park(d, sp))
  {
    var d' := Park(d, sp);
    PutNewRow(d.susps, sp);
    forall id | id in d'.jobs && StatusIn(d', id) == StatusSuspended ensures ParkedIn(d'.susps, id) {
      if id == sp.exec {
        assert sp in d'.susps;
      } else {
        var x :| x in d.susps && x.exec == id;
        assert x in d'.susps;
      }
    }
  }

  lemma ParkedRowsOk(c: Delivery.Codec, d: Desk, sp: Parking)
    requires Fit(c, d) && Parks(c, d, sp)
    ensures forall x :: x in d.susps ==> RowOk(c, Park(d, sp), x)
    ensures RowOk(c, Park(d, sp), sp)
  {
    NotParked(c, d, sp.exec);
    assert LogIn(Park(d, sp), sp.exec) == LogIn(d, sp.exec);
    forall x | x in d.susps ensures RowOk(c, Park(d, sp), x) { RowStaysOk(c, d, Park(d, sp), x); }
  }

  lemma ParkFits(c: Delivery.Codec, d: Desk, sp: Parking)
    requires Fit(c, d) && Parks(c, d, sp)
    ensures Fit(c, Park(d, sp)) && Park(d, sp).susps == d.susps + [sp]
  {
    var d' := Park(d, sp);
    SameLogs(d, d');
    NotParked(c, d, sp.exec);
    PutNewRow(d.susps, sp);
    ParkParks(d, sp);
    UniqueSnoc(d.susps, sp);
    ParkedRowsOk(c, d, sp);
    RowsTogether(c, d', d.susps, sp);
  }

  lemma RowsTogether(c: Delivery.Codec, d: Desk, rows: seq<Parking>, sp: Parking)
    requires d.susps == rows + [sp] && UniqueRows(rows + [sp]) && AllParked(d)
    requires (forall x :: x in rows ==> RowOk(c, d, x)) && RowOk(c, d, sp)
    ensures FitRows(c, d)
  {
  }

  lemma UniqueSnoc(rows: seq<Parking>, sp: Parking)
    requires UniqueRows(rows) && !ParkedIn(rows, sp.exec)
    ensures UniqueRows(rows + [sp])
  {
    forall i | 0 <= i < |rows| ensures rows[i].exec != sp.exec { assert rows[i] in rows; }
  }

  lemma UnparkParks(d: Desk, id: string)
    requires AllParked(d)
    ensures AllParked(Unpark(d, id))
  {
    DropRowDrops(d.susps, id);
    forall k | k in d.jobs && StatusIn(Unpark(d, id), k) == StatusSuspended ensures ParkedIn(Unpark(d, id).susps, k) {
      var x :| x in d.susps && x.exec == k;
      assert x in Unpark(d, id).susps;
    }
  }

  lemma LogFits(c: Delivery.Codec, d: Desk, id: string, log: seq<Event>)
    requires Fit(c, d) && id in d.jobs && StatusIn(d, id) != StatusSuspended && LogFine(d.jobs[id], log)
    ensures Fit(c, d.(logs := d.logs[id := log]))
  {
    var d' := d.(logs := d.logs[id := log]);
    forall k | k in d'.jobs ensures LogFine(d'.jobs[k], LogIn(d', k)) { assert k != id ==> LogIn(d', k) == LogIn(d, k); }
    forall x | x in d'.susps ensures RowOk(c, d', x) { assert RowOk(c, d, x) && LogIn(d', x.exec) == LogIn(d, x.exec); }
  }

  lemma SettleFits(c: Delivery.Codec, d: Desk, id: string, st: Status)
    requires Fit(c, d) && id in d.jobs && StatusIn(d, id) != StatusSuspended && st != StatusSuspended
    ensures Fit(c, d.(status := d.status[id := st]))
  {
    var d' := d.(status := d.status[id := st]);
    SameLogs(d, d');
    forall x | x in d.susps ensures RowOk(c, d', x) { RowStaysOk(c, d, d', x); }
  }

  ghost function Unpark(d: Desk, id: string): Desk {
    d.(status := d.status[id := StatusRunning], susps := DropRow(d.susps, id))
  }

  lemma UnparkFits(c: Delivery.Codec, d: Desk, id: string)
    requires Fit(c, d) && id in d.jobs
    ensures Fit(c, Unpark(d, id))
  {
    var d' := Unpark(d, id);
    SameLogs(d, d');
    DropRowDrops(d.susps, id);
    DropRowUnique(d.susps, id);
    UnparkParks(d, id);
    forall x | x in d'.susps ensures RowOk(c, d', x) { RowStaysOk(c, d, d', x); }
  }

  /** An execution that is not suspended has no row to drop. */
  lemma NoStaleRow(c: Delivery.Codec, d: Desk, id: string)
    requires Fit(c, d) && StatusIn(d, id) != StatusSuspended
    ensures DropRow(d.susps, id) == d.susps
  {
    NotParked(c, d, id);
    DropAbsent(d.susps, id);
  }

  lemma {:induction false} DropAbsent(rows: seq<Parking>, id: string)
    requires !ParkedIn(rows, id)
    ensures DropRow(rows, id) == rows
  {
    if rows != [] {
      assert rows[0] in rows && forall x :: x in rows[1..] ==> x in rows;
      DropAbsent(rows[1..], id);
      assert rows == [rows[0]] + rows[1..];
    }
  }

  lemma CreateFits(c: Delivery.Codec, d: Desk, id: string, job: Job)
    requires Fit(c, d) && id !in d.jobs && JobOk(job)
    ensures Fit(c, d.(jobs := d.jobs[id := job], status := d.status[id := StatusRunning]))
  {
    var d' := d.(jobs := d.jobs[id := job], status := d.status[id := StatusRunning]);
    NewLogFine(job);
    forall k | k in d'.jobs ensures LogFine(d'.jobs[k], LogIn(d', k)) { assert k != id ==> d'.jobs[k] == d.jobs[k]; }
    forall x | x in d'.susps ensures RowOk(c, d', x) { assert RowOk(c, d, x); }
  }
}
