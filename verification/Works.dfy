/** What a run of an execution really did: every answer it recorded came out of its executor, and the
    message table shows exactly its sends and its receipts. */
module Works {
  import opened Types
  import opened CallKeys
  import opened Logs
  import opened Scripts
  import opened Inboxes
  import opened Delivery
  import opened Positions
  import opened Platform
  import Nodes

  /** What an execution runs with: its script, how inbox arguments are read, the other executors (the
      n-th real run gets `n`), and the error of a send that cannot be read. */
  datatype Env = Env(id: string, job: Job, codec: Codec, executor: (string, Invocation, nat) -> Outcome, decodeError: string)

  /** An execution's log, the message table, and how many executors have really run. */
  datatype Work = Work(log: seq<Event>, rows: seq<Row>, ran: nat)

  ghost function Own(env: Env): string {
    Workspace(env.id, env.job)
  }

  /** The answers of executors other than the inbox's. */
  ghost function Reals(log: seq<Event>): nat {
    if log == [] then 0 else
      var ev := log[|log| - 1];
      Reals(log[..|log| - 1]) + if ev.Result? && ev.rpc.capability != "inbox" then 1 else 0
  }

  /** The messages a recorded send put into the table: to its target, or to the sender itself. */
  ghost function LetterOf(env: Env, ev: Event): seq<(string, string)> {
    if ev.Result? && ev.rpc.capability == "inbox" && ev.rpc.operation == "send" && env.codec.letter(ev.rpc.args).Some? then
      var (target, data) := env.codec.letter(ev.rpc.args).value;
      [(if target == "" then Own(env) else target, if data == "" then NULL else data)]
    else []
  }

  ghost function Letters(env: Env, log: seq<Event>): seq<(string, string)> {
    if log == [] then [] else Letters(env, log[..|log| - 1]) + LetterOf(env, log[|log| - 1])
  }

  /** The call the script makes under a key. */
  ghost predicate Makes(env: Env, memo: map<string, RPCRecord>, key: string, inv: Invocation) {
    exists k: nat :: key == Itoa(k) && InvAt(env.job.prog, [], 0, Ctx(env.job.granted, memo), [k]) == Some(inv)
  }

  /** The record of the call `inv` is what its executor gave: the n-th real run of an executor, a
      message the recv owns or a timeout after its deadline, or the inbox's answer to a send. */
  ghost predicate Gave(env: Env, inv: Invocation, rec: RPCRecord, n: nat, rows: seq<Row>, now: int) {
    var idem := IdemKey(env.id, rec.callKey);
    if inv.capability != "inbox" then
      var o := env.executor(idem, inv, n);
      !o.Suspended? && rec == ResultRecord(env.id, rec.callKey, inv, o)
    else if inv.operation == "recv" then
      && rec == ResultRecord(env.id, rec.callKey, inv, Success(rec.result))
      && (Owned(rows, Own(env), idem, rec.result) || (rec.result == NULL && 0 < env.codec.deadline(inv.args) <= now))
    else if inv.operation == "send" && env.codec.letter(inv.args).None? then
      rec == ResultRecord(env.id, rec.callKey, inv, Failure(env.decodeError))
    else rec == ResultRecord(env.id, rec.callKey, inv, Success(NULL))
  }

  ghost predicate AnswerMade(env: Env, memo: map<string, RPCRecord>, rec: RPCRecord, n: nat, rows: seq<Row>, now: int) {
    exists inv: Invocation :: Makes(env, memo, rec.callKey, inv) && Gave(env, inv, rec, n, rows, now)
  }

  /** A row's consumer is as before, or this execution. */
  ghost predicate TakenBy(env: Env, was: string, owner: string) {
    owner == was || (was == "" && exists key :: owner == IdemKey(env.id, key))
  }

  /** The table has gained these messages in this order, and nothing else; and only this execution has
      claimed, and only from its own inbox. */
  ghost predicate Mailed(env: Env, rows: seq<Row>, rows': seq<Row>, letters: seq<(string, string)>) {
    && |rows'| == |rows| + |letters| && RowsStay(rows, rows')
    && (forall i :: 0 <= i < |rows| ==> TakenBy(env, rows[i].consumedBy, rows'[i].consumedBy))
    && (forall i :: 0 <= i < |rows| && rows[i].workspace != Own(env) ==> rows'[i].consumedBy == rows[i].consumedBy)
    && (forall k :: 0 <= k < |letters| ==> Delivered(env, letters[k], rows'[|rows| + k]))
  }

  ghost predicate Delivered(env: Env, letter: (string, string), r: Row) {
    && r.workspace == letter.0 && r.data == letter.1
    && TakenBy(env, "", r.consumedBy) && (r.workspace != Own(env) ==> r.consumedBy == "")
  }

  /** From `a` to `b`, in order: each answer new in the log was made for the script's own call, by the
      executor, in a run of its own; the table has gained exactly the messages the log says were sent. */
  ghost predicate Made(env: Env, a: Work, b: Work, now: int) {
    && a.log <= b.log && Sub(MemoOf(a.log), MemoOf(b.log))
    && b.ran + Reals(a.log) == a.ran + Reals(b.log)
    && Letters(env, a.log) <= Letters(env, b.log)
    && Mailed(env, a.rows, b.rows, Letters(env, b.log)[|Letters(env, a.log)|..])
    && (forall i :: |a.log| <= i < |b.log| && b.log[i].Result? ==>
          AnswerMade(env, MemoOf(b.log), b.log[i].rpc, RunOf(a, b.log, i), b.rows, now))
  }

  /** The number of the real run that gave the answer at `i`. */
  ghost function RunOf(a: Work, log: seq<Event>, i: nat): nat
    requires i <= |log|
  {
    if Reals(log[..i]) >= Reals(a.log) then a.ran + (Reals(log[..i]) - Reals(a.log)) + 1 else 0
  }

  lemma NothingMade(env: Env, a: Work, now: int)
    ensures Made(env, a, a, now)
  {
    assert Letters(env, a.log)[|Letters(env, a.log)|..] == [];
  }

  // ---- One thing after another

  lemma MailedOn(env: Env, a: seq<Row>, b: seq<Row>, c: seq<Row>, l: seq<(string, string)>, m: seq<(string, string)>)
    requires Mailed(env, a, b, l) && Mailed(env, b, c, m)
    ensures Mailed(env, a, c, l + m)
  {
    forall i | 0 <= i < |a|
      ensures RowStays(a, c, i) && TakenBy(env, a[i].consumedBy, c[i].consumedBy)
      ensures a[i].workspace != Own(env) ==> c[i].consumedBy == a[i].consumedBy
    {
      assert RowStays(a, b, i) && RowStays(b, c, i);
      assert TakenBy(env, a[i].consumedBy, b[i].consumedBy) && TakenBy(env, b[i].consumedBy, c[i].consumedBy);
    }
    forall k | 0 <= k < |l + m| ensures Delivered(env, (l + m)[k], c[|a| + k]) {
      if k < |l| {
        var i := |a| + k;
        assert Delivered(env, l[k], b[i]) && RowStays(b, c, i) && TakenBy(env, b[i].consumedBy, c[i].consumedBy);
      } else {
        assert Delivered(env, m[k - |l|], c[|b| + (k - |l|)]);
      }
    }
  }

  lemma MakesOn(env: Env, memo: map<string, RPCRecord>, memo': map<string, RPCRecord>, key: string, inv: Invocation)
    requires Sub(memo, memo') && Makes(env, memo, key, inv)
    ensures Makes(env, memo', key, inv)
  {
    var k: nat :| key == Itoa(k) && InvAt(env.job.prog, [], 0, Ctx(env.job.granted, memo), [k]) == Some(inv);
    Nodes.InvMonotone(env.job.prog, [], 0, Ctx(env.job.granted, memo), Ctx(env.job.granted, memo'), [k]);
  }

  lemma OwnedOn(env: Env, rows: seq<Row>, rows': seq<Row>, letters: seq<(string, string)>, idem: string, data: string)
    requires Mailed(env, rows, rows', letters) && Owned(rows, Own(env), idem, data) && idem != ""
    ensures Owned(rows', Own(env), idem, data)
  {
    var i: nat :| i < |rows| && Is(rows[i], Own(env), idem) && rows[i].data == data;
    assert RowStays(rows, rows', i);
  }

  lemma AnswerMadeOn(env: Env, memo: map<string, RPCRecord>, memo': map<string, RPCRecord>, rec: RPCRecord, n: nat,
                     rows: seq<Row>, rows': seq<Row>, letters: seq<(string, string)>, now: int, later: int)
    requires AnswerMade(env, memo, rec, n, rows, now) && Sub(memo, memo') && Mailed(env, rows, rows', letters) && now <= later
    ensures AnswerMade(env, memo', rec, n, rows', later)
  {
    var inv: Invocation :| Makes(env, memo, rec.callKey, inv) && Gave(env, inv, rec, n, rows, now);
    MakesOn(env, memo, memo', rec.callKey, inv);
    var idem := IdemKey(env.id, rec.callKey);
    if Owned(rows, Own(env), idem, rec.result) { OwnedOn(env, rows, rows', letters, idem, rec.result); }
    assert Gave(env, inv, rec, n, rows', later);
  }

  lemma {:induction false} RealsGrow(log: seq<Event>, i: nat)
    requires i <= |log|
    ensures Reals(log[..i]) <= Reals(log)
    decreases |log|
  {
    if i < |log| {
      var init := log[..|log| - 1];
      assert init[..i] == log[..i];
      RealsGrow(init, i);
    } else {
      assert log[..i] == log;
    }
  }

  lemma MadeOn(env: Env, a: Work, b: Work, c: Work, now: int, later: int)
    requires Made(env, a, b, now) && Made(env, b, c, later) && now <= later
    ensures Made(env, a, c, later)
  {
    var la, lb, lc := Letters(env, a.log), Letters(env, b.log), Letters(env, c.log);
    MailedOn(env, a.rows, b.rows, c.rows, lb[|la|..], lc[|lb|..]);
    assert lb[|la|..] + lc[|lb|..] == lc[|la|..];
    forall i | |a.log| <= i < |c.log| && c.log[i].Result?
      ensures AnswerMade(env, MemoOf(c.log), c.log[i].rpc, RunOf(a, c.log, i), c.rows, later)
    {
      if i < |b.log| {
        PrefixRun(a, b.log, c.log, i);
        AnswerMadeOn(env, MemoOf(b.log), MemoOf(c.log), b.log[i].rpc, RunOf(a, b.log, i), b.rows, c.rows, lc[|lb|..], now, later);
      } else {
        SameRun(a, b, c.log, i);
      }
    }
  }

  lemma PrefixRun(a: Work, log: seq<Event>, log': seq<Event>, i: nat)
    requires log <= log' && i < |log|
    ensures log'[i] == log[i] && RunOf(a, log', i) == RunOf(a, log, i)
  {
    assert log'[..i] == log[..i];
  }

  /** Counting on from `b` is counting on from `a`. */
  lemma SameRun(a: Work, b: Work, log: seq<Event>, i: nat)
    requires a.log <= b.log <= log && |b.log| <= i <= |log| && b.ran + Reals(a.log) == a.ran + Reals(b.log)
    ensures RunOf(a, log, i) == RunOf(b, log, i)
  {
    assert log[..i][..|b.log|] == b.log && b.log[..|a.log|] == a.log;
    RealsGrow(log[..i], |b.log|);
    RealsGrow(b.log, |a.log|);
  }

  lemma RealsLast(log: seq<Event>, ev: Event)
    ensures Reals(log + [ev]) == Reals(log) + if ev.Result? && ev.rpc.capability != "inbox" then 1 else 0
  {
    assert (log + [ev])[..|log|] == log;
  }

  ghost predicate RealAnswer(ev: Event) {
    ev.Result? && ev.rpc.capability != "inbox"
  }

  /** The prefixes of a log have no more real answers than a longer one, and fewer if one lies between. */
  lemma RealsBetween(log: seq<Event>, i: nat, j: nat)
    requires i <= j <= |log|
    ensures Reals(log[..i]) <= Reals(log[..j])
    ensures i < j && RealAnswer(log[i]) ==> Reals(log[..i]) < Reals(log[..j])
  {
    assert log[..j][..i] == log[..i];
    RealsGrow(log[..j], i);
    if i < j && RealAnswer(log[i]) {
      assert log[..i + 1] == log[..i] + [log[i]];
      RealsLast(log[..i], log[i]);
      assert log[..j][..i + 1] == log[..i + 1];
      RealsGrow(log[..j], i + 1);
    }
  }

  /** Every recorded answer of a run had a real run of an executor of its own, among those it made. */
  lemma RunsOfTheirOwn(a: Work, b: Work, i: nat, j: nat)
    requires a.log <= b.log && b.ran + Reals(a.log) == a.ran + Reals(b.log)
    requires |a.log| <= i < j < |b.log| && RealAnswer(b.log[i]) && RealAnswer(b.log[j])
    ensures a.ran < RunOf(a, b.log, i) < RunOf(a, b.log, j) <= b.ran
  {
    var log := b.log;
    assert log[..|a.log|] == a.log && log[..|log|] == log;
    RealsBetween(log, |a.log|, i);
    RealsBetween(log, i, j);
    RealsBetween(log, j, |log|);
  }

  // ---- One call

  /** What really running the call `inv` under `key` at `now` does and gives. */
  ghost predicate Executed(env: Env, inv: Invocation, key: string, a: Work, b: Work, now: int, o: Outcome) {
    var idem := IdemKey(env.id, key);
    if inv.capability != "inbox" then b.ran == a.ran + 1 && b.rows == a.rows && o == env.executor(idem, inv, b.ran)
    else
      && b.ran == a.ran
      && (if IsRecv(inv) then (o, b.rows) == RecvModel(a.rows, Own(env), idem, env.codec.deadline(inv.args), now)
          else if IsSend(inv) then Mails(env, inv, a.rows, b.rows, o)
          else o == Success(NULL) && b.rows == a.rows)
  }

  ghost predicate Mails(env: Env, inv: Invocation, rows: seq<Row>, rows': seq<Row>, o: Outcome) {
    match env.codec.letter(inv.args)
    case None => o == Failure(env.decodeError) && rows' == rows
    case Some((target, data)) =>
      && o == Success(NULL) && |rows'| == |rows| + 1 && rows'[..|rows|] == rows
      && rows'[|rows|].workspace == (if target == "" then Own(env) else target)
      && rows'[|rows|].data == (if data == "" then NULL else data) && rows'[|rows|].consumedBy == ""
  }

  lemma NothingMailed(env: Env, rows: seq<Row>)
    ensures Mailed(env, rows, rows, [])
  {
  }

  lemma ClaimMailed(env: Env, rows: seq<Row>, key: string, deadline: int, now: int)
    ensures Mailed(env, rows, RecvModel(rows, Own(env), IdemKey(env.id, key), deadline, now).1, [])
  {
    var idem := IdemKey(env.id, key);
    var rows' := RecvModel(rows, Own(env), idem, deadline, now).1;
    forall i | 0 <= i < |rows| ensures TakenBy(env, rows[i].consumedBy, rows'[i].consumedBy) {
      if rows'[i] != rows[i] { assert rows'[i].consumedBy == idem; }
    }
  }

  lemma ClaimGave(env: Env, rows: seq<Row>, inv: Invocation, key: string, now: int)
    requires IsRecv(inv) && !RecvModel(rows, Own(env), IdemKey(env.id, key), env.codec.deadline(inv.args), now).0.Suspended?
    ensures var (o, rows') := RecvModel(rows, Own(env), IdemKey(env.id, key), env.codec.deadline(inv.args), now);
            Gave(env, inv, ResultRecord(env.id, key, inv, o), 0, rows', now)
  {
    var idem := IdemKey(env.id, key);
    var (o, rows') := RecvModel(rows, Own(env), idem, env.codec.deadline(inv.args), now);
    var c := ClaimModel(rows, Own(env), idem);
    if First(rows, Own(env), idem).Some? {
      assert Is(rows'[First(rows, Own(env), idem).value], Own(env), idem);
    } else if First(rows, Own(env), "").Some? {
      assert Is(rows'[First(rows, Own(env), "").value], Own(env), idem);
    }
  }

  /** What an answered call adds to the log, seen from the counts. */
  lemma LoggedCounts(env: Env, log: seq<Event>, key: string, inv: Invocation)
    ensures var ran := Logged(env.id, log, key, inv);
            log <= ran && Reals(ran) == Reals(log) && Letters(env, ran) == Letters(env, log) && MemoOf(ran) == MemoOf(log)
            && |ran| <= |log| + 1 && forall i :: |log| <= i < |ran| ==> !ran[i].Result?
  {
    LoggedMemo(env.id, log, key, inv);
    var ev := Intent(|log|, CallRecord(env.id, key, inv));
    assert (log + [ev])[..|log|] == log;
    assert Letters(env, log + [ev]) == Letters(env, log) + [] == Letters(env, log);
  }

  lemma LoggedMade(env: Env, a: Work, key: string, inv: Invocation, now: int)
    ensures Made(env, a, Work(Logged(env.id, a.log, key, inv), a.rows, a.ran), now)
  {
    LoggedCounts(env, a.log, key, inv);
    NothingMailed(env, a.rows);
    assert Letters(env, a.log)[|Letters(env, a.log)|..] == [];
  }

  /** What one more answer adds to the counts. */
  lemma ResultCounts(env: Env, log: seq<Event>, ev: Event)
    requires ev.Result?
    ensures var log' := log + [ev];
            && Reals(log') == Reals(log) + (if RealAnswer(ev) then 1 else 0)
            && Letters(env, log') == Letters(env, log) + LetterOf(env, ev)
            && Letters(env, log')[|Letters(env, log)|..] == LetterOf(env, ev)
            && MemoOf(log') == MemoOf(log)[ev.rpc.callKey := ev.rpc]
  {
    assert (log + [ev])[..|log|] == log;
    MemoSnoc(log, ev);
    RealsLast(log, ev);
  }

  lemma NextRun(a: Work, ev: Event)
    ensures RunOf(a, a.log + [ev], |a.log|) == a.ran + 1
  {
    assert (a.log + [ev])[..|a.log|] == a.log;
  }

  ghost predicate Notes(env: Env, a: Work, b: Work, ev: Event) {
    && ev.Result? && b.log == a.log + [ev] && ev.rpc.callKey !in MemoOf(a.log)
    && b.ran == a.ran + (if RealAnswer(ev) then 1 else 0) && Mailed(env, a.rows, b.rows, LetterOf(env, ev))
  }

  /** Recording an answer. */
  lemma ResultMade(env: Env, a: Work, b: Work, ev: Event, inv: Invocation, now: int)
    requires Notes(env, a, b, ev)
    requires Makes(env, MemoOf(a.log), ev.rpc.callKey, inv) && Gave(env, inv, ev.rpc, a.ran + 1, b.rows, now)
    ensures Made(env, a, b, now)
  {
    ResultCounts(env, a.log, ev);
    NextRun(a, ev);
    MakesOn(env, MemoOf(a.log), MemoOf(b.log), ev.rpc.callKey, inv);
    assert AnswerMade(env, MemoOf(b.log), ev.rpc, a.ran + 1, b.rows, now);
    forall i | |a.log| <= i < |b.log| ensures i == |a.log| && b.log[i] == ev {}
  }

  /** The n matters only for a real run. */
  lemma AnyRun(env: Env, inv: Invocation, rec: RPCRecord, n: nat, m: nat, rows: seq<Row>, now: int)
    requires Gave(env, inv, rec, n, rows, now) && inv.capability == "inbox"
    ensures Gave(env, inv, rec, m, rows, now)
  {
  }

  /** What was executed is what the record says. */
  lemma ExecutedGave(env: Env, inv: Invocation, key: string, a: Work, b: Work, now: int, o: Outcome)
    requires Executed(env, inv, key, a, b, now, o) && !o.Suspended?
    ensures Gave(env, inv, ResultRecord(env.id, key, inv, o), a.ran + 1, b.rows, now)
  {
    if IsRecv(inv) {
      ClaimGave(env, a.rows, inv, key, now);
      AnyRun(env, inv, ResultRecord(env.id, key, inv, o), 0, a.ran + 1, b.rows, now);
    }
  }

  lemma ExecutedMailed(env: Env, inv: Invocation, key: string, a: Work, b: Work, now: int, o: Outcome)
    requires Executed(env, inv, key, a, b, now, o)
    ensures !o.Suspended? ==> Mailed(env, a.rows, b.rows, LetterOf(env, Result(0, ResultRecord(env.id, key, inv, o))))
    ensures o.Suspended? && inv.capability == "inbox" ==> b.rows == a.rows && b.ran == a.ran
  {
    NothingMailed(env, a.rows);
    if IsRecv(inv) { ClaimMailed(env, a.rows, key, env.codec.deadline(inv.args), now); }
  }

  /** The log of the call at which replay has stopped, once it is answered for real. */
  lemma AnsweredMade(env: Env, a: Work, b: Work, s: Position, o: Outcome, now: int)
    requires LogFine(env.job, a.log) && s == Here(env.job, a.log) && s.prog.Call? && !o.Suspended?
    requires Executed(env, s.prog.inv, Itoa(s.ctr), a, b, now, o)
    requires b.log == Answered(env.id, a.log, Itoa(s.ctr), s.prog.inv, o)
    ensures Made(env, a, b, now)
  {
    var inv, key := s.prog.inv, Itoa(s.ctr);
    var mid := Work(Logged(env.id, a.log, key, inv), a.rows, a.ran);
    var ev := Result(|mid.log|, ResultRecord(env.id, key, inv, o));
    LoggedMade(env, a, key, inv, now);
    LoggedCounts(env, a.log, key, inv);
    StopKeeps(env.job.prog, 0, env.job.granted, MemoOf(a.log), env.job.calls);
    StopIsCall(env.job.prog, 0, Ctx(env.job.granted, MemoOf(a.log)));
    assert Makes(env, MemoOf(mid.log), key, inv);
    ExecutedGave(env, inv, key, a, b, now, o);
    ExecutedMailed(env, inv, key, a, b, now, o);
    ResultMade(env, mid, b, ev, inv, now);
    MadeOn(env, a, mid, b, now, now);
  }
}
