/** Histories in which a message is lost: two overlapping attempts stand at the same recv; the lease
    holder records a timeout, then the superseded one claims the next message for the same call.
    The holder goes on, and its next recv gets the message after the lost one. */
module LostMessages {
  import opened Types
  import opened CallKeys
  import opened Logs
  import opened Scripts
  import opened Replay
  import opened Inboxes
  import opened Delivery
  import opened DeliveryOrder
  import opened DeliveryPrefix
  import ReplaySteps

  const RECV := Invocation("inbox", "recv", "{\"deadline\":1}", true, false)
  const NEXT_RECV := Invocation("inbox", "recv", "{\"deadline\":0}", true, false)
  const HELLO := "\"hello\""
  const WORLD := "\"world\""

  /** A recv with an absolute deadline of 1; after its timeout, a recv without one. */
  ghost function Script(): Prog {
    Call(RECV, Rest())
  }

  ghost function Rest(): imap<Response, Prog> {
    imap[Ok(NULL) := Call(NEXT_RECV, imap[])]
  }

  ghost function WaiterSystem(): System {
    System("e", Script(), {"inbox"}, false)
  }

  function DeadlineIn(args: string): int {
    if args == RECV.args then 1 else 0
  }

  ghost function Waiter(): Fleet {
    Fleet(map["e" := Site(WaiterSystem(), "w")], Codec(DeadlineIn, (args: string) => None))
  }

  // ---- Steps of one engine

  /** Attempt `r` runs, stands at `n` and knows `v` of the log. */
  ghost predicate Runs(s: State, r: nat, n: Node, v: View) {
    r in s.attempts && s.attempts[r].phase.Running? && s.attempts[r].node == n && s.attempts[r].view == v
  }

  /** Everybody but `r` is where they were. */
  ghost predicate OthersStay(s: State, s': State, r: nat) {
    forall t :: t in s.attempts && t != r ==> t in s'.attempts && s'.attempts[t] == s.attempts[t]
  }

  lemma Starts(s: State, r: nat)
    requires r !in s.attempts && s.lease.minted < r
    ensures Enabled(WaiterSystem(), s, Acquire(r, r))
    ensures var s' := Next(WaiterSystem(), s, Acquire(r, r));
            && s'.log == s.log && s'.lease == Lease(r, Some(r)) && s'.attempts.Keys == s.attempts.Keys + {r}
            && s'.attempts[r] == Attempt(r, Waiting, EMPTY_VIEW, map[], At(Script(), 0), false) && OthersStay(s, s', r)
  {
  }

  lemma Reads(s: State, r: nat)
    requires s.log == [] && r in s.attempts && s.attempts[r].phase.Waiting?
    ensures Enabled(WaiterSystem(), s, Read(r))
    ensures var s' := Next(WaiterSystem(), s, Read(r));
            && s'.log == [] && s'.lease == s.lease && s'.attempts.Keys == s.attempts.Keys && OthersStay(s, s', r)
            && Runs(s', r, s.attempts[r].node, EMPTY_VIEW) && s'.attempts[r].token == s.attempts[r].token
  {
  }

  /** A call that is not on record goes on to its executor. */
  lemma Misses(s: State, r: nat, inv: Invocation, rest: imap<Response, Prog>, ctr: nat, v: View)
    requires Runs(s, r, At(Call(inv, rest), ctr), v) && inv.capability == "inbox" && Itoa(ctr) !in v.memo
    ensures Enabled(WaiterSystem(), s, Advance(r, []))
    ensures var s' := Next(WaiterSystem(), s, Advance(r, []));
            && s'.log == s.log && s'.lease == s.lease && s'.attempts.Keys == s.attempts.Keys && OthersStay(s, s', r)
            && Runs(s', r, Flight(inv, rest, ctr, Missed), v) && s'.attempts[r].token == s.attempts[r].token
  {
    DottedSnoc([], ctr);
  }

  lemma Executes(s: State, r: nat, inv: Invocation, rest: imap<Response, Prog>, ctr: nat, v: View, o: Outcome)
    requires Runs(s, r, Flight(inv, rest, ctr, Missed), v) && inv.idempotent && !o.Suspended? && o != Failure("")
    ensures Enabled(WaiterSystem(), s, Execute(r, [], o))
    ensures Ran(s, Execute(r, [], o)) == Some((inv, Itoa(ctr)))
    ensures var s' := Next(WaiterSystem(), s, Execute(r, [], o));
            && s'.log == s.log && s'.lease == s.lease && s'.attempts.Keys == s.attempts.Keys && OthersStay(s, s', r)
            && Runs(s', r, Flight(inv, rest, ctr, Returned(o)), v) && s'.attempts[r].token == s.attempts[r].token
  {
    DottedSnoc([], ctr);
  }

  ghost function Answer(ctr: nat, inv: Invocation, o: Outcome): RPCRecord
    requires !o.Suspended?
  {
    ResultRecord("e", Itoa(ctr), inv, o)
  }

  /** The lease holder, who has read the whole log, records an answer. */
  lemma Records(s: State, r: nat, inv: Invocation, rest: imap<Response, Prog>, ctr: nat, o: Outcome)
    requires Runs(s, r, Flight(inv, rest, ctr, Returned(o)), View(|s.log|, MemoOf(s.log))) && Holds(s, r) && Dense(s.log)
    requires o.Success? && !inv.mutatesFS
    ensures Enabled(WaiterSystem(), s, Record(r, [], false))
    ensures var s', rec := Next(WaiterSystem(), s, Record(r, [], false)), Answer(ctr, inv, o);
            && s'.log == s.log + [Result(|s.log|, rec)] && s'.lease == s.lease && s'.attempts.Keys == s.attempts.Keys && OthersStay(s, s', r)
            && Runs(s', r, At(After(rest, Ok(o.json)), ctr + 1), View(|s'.log|, MemoOf(s'.log))) && s'.attempts[r].token == s.attempts[r].token
  {
    DottedSnoc([], ctr);
    MemoSnoc(s.log, Result(|s.log|, Answer(ctr, inv, o)));
    ReplaySteps.HolderWrites(s, r, Result(0, Answer(ctr, inv, o)));
  }

  // ---- Histories

  /** The history goes on with a happening. */
  lemma GoesOn(hs: seq<Happening>, h: Happening) returns (more: seq<Happening>)
    requires Lawful(Waiter(), hs) && CanHappen(Waiter(), WorldAfter(Waiter(), hs), h)
    ensures Lawful(Waiter(), more) && WorldAfter(Waiter(), more) == WorldNext(Waiter(), WorldAfter(Waiter(), hs), h)
  {
    more := hs + [h];
    assert more[..|more| - 1] == hs && more[|more| - 1] == h;
  }

  ghost function Mail(hs: seq<Happening>): seq<Row>
    requires Lawful(Waiter(), hs)
  {
    WorldAfter(Waiter(), hs).rows
  }

  ghost function Core(hs: seq<Happening>): State
    requires Lawful(Waiter(), hs)
  {
    StateOf(WorldAfter(Waiter(), hs), "e")
  }

  /** A step that runs no executor. */
  lemma QuietStep(hs: seq<Happening>, l: Label) returns (more: seq<Happening>)
    requires Lawful(Waiter(), hs) && !l.Execute? && !l.Park? && Enabled(WaiterSystem(), Core(hs), l)
    ensures Lawful(Waiter(), more) && Mail(more) == Mail(hs) && Core(more) == Next(WaiterSystem(), Core(hs), l)
  {
    assert Ran(Core(hs), l) == None;
    more := GoesOn(hs, Engine("e", l, 1));
  }

  /** A recv that runs at time 1. */
  lemma RecvStep(hs: seq<Happening>, l: Label, inv: Invocation, key: string) returns (more: seq<Happening>)
    requires Lawful(Waiter(), hs) && l.Execute? && Enabled(WaiterSystem(), Core(hs), l) && Ran(Core(hs), l) == Some((inv, key)) && IsRecv(inv)
    requires Inboxes.RecvModel(Mail(hs), "w", IdemKey("e", key), DeadlineIn(inv.args), 1).0 == l.outcome
    ensures Lawful(Waiter(), more) && Core(more) == Next(WaiterSystem(), Core(hs), l)
    ensures Mail(more) == Inboxes.RecvModel(Mail(hs), "w", IdemKey("e", key), DeadlineIn(inv.args), 1).1
  {
    more := GoesOn(hs, Engine("e", l, 1));
  }

  /** A message arrives. */
  lemma Arrives(hs: seq<Happening>, data: string) returns (more: seq<Happening>)
    requires Lawful(Waiter(), hs) && data != ""
    ensures Lawful(Waiter(), more) && Core(more) == Core(hs) && Mail(more) == Mail(hs) + [Row(|Mail(hs)| + 1, "w", data, "")]
  {
    more := GoesOn(hs, Post("w", data));
  }

  /** Attempt `r` runs its recv at time 1. */
  lemma Takes(hs: seq<Happening>, r: nat, inv: Invocation, rest: imap<Response, Prog>, ctr: nat, v: View, json: string, mail: seq<Row>)
    returns (more: seq<Happening>)
    requires Lawful(Waiter(), hs) && Runs(Core(hs), r, Flight(inv, rest, ctr, Missed), v) && IsRecv(inv) && inv.idempotent
    requires Inboxes.RecvModel(Mail(hs), "w", IdemKey("e", Itoa(ctr)), DeadlineIn(inv.args), 1) == (Success(json), mail)
    ensures Lawful(Waiter(), more) && Mail(more) == mail
    ensures Core(more).log == Core(hs).log && Core(more).lease == Core(hs).lease && OthersStay(Core(hs), Core(more), r)
    ensures Runs(Core(more), r, Flight(inv, rest, ctr, Returned(Success(json))), v) && Core(more).attempts[r].token == Core(hs).attempts[r].token
  {
    Executes(Core(hs), r, inv, rest, ctr, v, Success(json));
    more := RecvStep(hs, Execute(r, [], Success(json)), inv, Itoa(ctr));
  }

  /** The lease holder records the answer to its recv. */
  lemma Notes(hs: seq<Happening>, r: nat, inv: Invocation, rest: imap<Response, Prog>, ctr: nat, json: string) returns (more: seq<Happening>)
    requires Lawful(Waiter(), hs) && !inv.mutatesFS && Dense(Core(hs).log) && Holds(Core(hs), r)
    requires Runs(Core(hs), r, Flight(inv, rest, ctr, Returned(Success(json))), View(|Core(hs).log|, MemoOf(Core(hs).log)))
    ensures Lawful(Waiter(), more) && Mail(more) == Mail(hs)
    ensures Core(more).log == Core(hs).log + [Result(|Core(hs).log|, Answer(ctr, inv, Success(json)))]
    ensures Holds(Core(more), r) && OthersStay(Core(hs), Core(more), r)
    ensures Runs(Core(more), r, At(After(rest, Ok(json)), ctr + 1), View(|Core(more).log|, MemoOf(Core(more).log)))
  {
    Records(Core(hs), r, inv, rest, ctr, Success(json));
    more := QuietStep(hs, Record(r, [], false));
  }

  /** Attempt `r` starts, reads the empty log and is about to run its recv. */
  lemma ComesToRecv(hs: seq<Happening>, r: nat) returns (more: seq<Happening>)
    requires Lawful(Waiter(), hs) && Mail(hs) == [] && Core(hs).log == [] && r !in Core(hs).attempts && Core(hs).lease.minted < r
    ensures Lawful(Waiter(), more) && Mail(more) == [] && Core(more).log == []
    ensures Core(more).lease == Lease(r, Some(r)) && Core(more).attempts.Keys == Core(hs).attempts.Keys + {r} && OthersStay(Core(hs), Core(more), r)
    ensures Runs(Core(more), r, Flight(RECV, Rest(), 0, Missed), EMPTY_VIEW) && Core(more).attempts[r].token == r
  {
    Starts(Core(hs), r);
    more := QuietStep(hs, Acquire(r, r));
    Reads(Core(more), r);
    more := QuietStep(more, Read(r));
    Misses(Core(more), r, RECV, Rest(), 0, EMPTY_VIEW);
    more := QuietStep(more, Advance(r, []));
  }

  /** The idempotency key of the script's n-th call. */
  ghost function Owner(n: nat): string {
    IdemKey("e", Itoa(n))
  }

  lemma OwnersDiffer()
    ensures Owner(0) != "" && Owner(1) != "" && Owner(0) != Owner(1)
  {
    assert Itoa(0)[0] != Itoa(1)[0];
    IdemKeyCancels("e", Itoa(0), Itoa(1));
  }

  ghost function Hello(owner: string): Row {
    Row(1, "w", HELLO, owner)
  }

  ghost function World(owner: string): Row {
    Row(2, "w", WORLD, owner)
  }

  lemma EmptyTimesOut(owner: string)
    ensures Inboxes.RecvModel([], "w", owner, DeadlineIn(RECV.args), 1) == (Success(NULL), [])
  {
  }

  /** An unowned message at the end of the table is the one taken. */
  lemma LastIsTaken(rows: seq<Row>, r: Row, owner: string, deadline: int)
    requires r.workspace == "w" && r.consumedBy == "" && owner != ""
    requires forall i :: 0 <= i < |rows| ==> rows[i].consumedBy != "" && rows[i].consumedBy != owner
    ensures Inboxes.RecvModel(rows + [r], "w", owner, deadline, 1) == (Success(r.data), rows + [r.(consumedBy := owner)])
  {
    var all := rows + [r];
    assert Is(all[|rows|], "w", "") && First(all, "w", "") == Some(|rows|);
    assert First(all, "w", owner) == None;
    assert all[|rows| := r.(consumedBy := owner)] == rows + [r.(consumedBy := owner)];
  }

  ghost function TimeoutLog(): seq<Event> {
    [Result(0, Answer(0, RECV, Success(NULL)))]
  }

  /** The holder, attempt 2, has recorded a timeout and stands at its next recv. */
  ghost predicate HolderGoesOn(s: State) {
    && s.log == TimeoutLog() && Holds(s, 2)
    && Runs(s, 2, At(Call(NEXT_RECV, imap[]), 1), View(1, MemoOf(TimeoutLog())))
  }

  ghost predicate Overtaken(s: State) {
    Runs(s, 1, Flight(RECV, Rest(), 0, Missed), EMPTY_VIEW)
  }

  /** Two attempts stand at the same recv; the second has the lease. */
  lemma TwoAtRecv() returns (hs: seq<Happening>)
    ensures Lawful(Waiter(), hs) && Mail(hs) == [] && Core(hs).log == [] && Overtaken(Core(hs))
    ensures Holds(Core(hs), 2) && Runs(Core(hs), 2, Flight(RECV, Rest(), 0, Missed), EMPTY_VIEW)
  {
    hs := ComesToRecv([], 1);
    hs := ComesToRecv(hs, 2);
  }

  /** The second one's recv times out ... */
  lemma TimesOut() returns (hs: seq<Happening>)
    ensures Lawful(Waiter(), hs) && Mail(hs) == [] && Core(hs).log == [] && Overtaken(Core(hs))
    ensures Holds(Core(hs), 2) && Runs(Core(hs), 2, Flight(RECV, Rest(), 0, Returned(Success(NULL))), EMPTY_VIEW)
  {
    hs := TwoAtRecv();
    EmptyTimesOut(Owner(0));
    hs := Takes(hs, 2, RECV, Rest(), 0, EMPTY_VIEW, NULL, []);
  }

  lemma OvertakenStays(s: State, s': State)
    requires Overtaken(s) && OthersStay(s, s', 2)
    ensures Overtaken(s')
  {
  }

  lemma HolderStays(s: State, s': State)
    requires HolderGoesOn(s) && OthersStay(s, s', 1) && s'.log == s.log && s'.lease == s.lease
    ensures HolderGoesOn(s')
  {
  }

  lemma TimeoutRecorded(s: State)
    requires s.log == [] + [Result(0, Answer(0, RECV, Success(NULL)))] && Holds(s, 2)
    requires Runs(s, 2, At(After(Rest(), Ok(NULL)), 1), View(|s.log|, MemoOf(s.log)))
    ensures HolderGoesOn(s)
  {
    assert s.log == TimeoutLog();
  }

  /** ... and is recorded. */
  lemma NotesTimeout() returns (hs: seq<Happening>)
    ensures Lawful(Waiter(), hs) && Mail(hs) == [] && Overtaken(Core(hs)) && HolderGoesOn(Core(hs))
  {
    var was := TimesOut();
    hs := Notes(was, 2, RECV, Rest(), 0, NULL);
    OvertakenStays(Core(was), Core(hs));
    TimeoutRecorded(Core(hs));
  }

  lemma ArrivesFirst(hs: seq<Happening>, data: string) returns (more: seq<Happening>)
    requires Lawful(Waiter(), hs) && data != "" && Mail(hs) == []
    ensures Lawful(Waiter(), more) && Core(more) == Core(hs) && Mail(more) == [Row(1, "w", data, "")]
  {
    more := Arrives(hs, data);
  }

  lemma HelloArrives() returns (hs: seq<Happening>)
    ensures Lawful(Waiter(), hs) && Mail(hs) == [Hello("")] && Overtaken(Core(hs)) && HolderGoesOn(Core(hs))
  {
    hs := NotesTimeout();
    hs := ArrivesFirst(hs, HELLO);
  }

  lemma TakesHello()
    ensures Inboxes.RecvModel([Hello("")], "w", Owner(0), DeadlineIn(RECV.args), 1) == (Success(HELLO), [Hello(Owner(0))])
  {
    OwnersDiffer();
    LastIsTaken([], Hello(""), Owner(0), DeadlineIn(RECV.args));
    assert [] + [Hello("")] == [Hello("")] && [] + [Hello(Owner(0))] == [Hello(Owner(0))];
  }

  /** A message arrives, and the superseded attempt claims it for the call that has timed out. */
  lemma ClaimsLate() returns (hs: seq<Happening>)
    ensures Lawful(Waiter(), hs) && Mail(hs) == [Hello(Owner(0))] && HolderGoesOn(Core(hs))
  {
    var was := HelloArrives();
    TakesHello();
    hs := Takes(was, 1, RECV, Rest(), 0, EMPTY_VIEW, HELLO, [Hello(Owner(0))]);
    HolderStays(Core(was), Core(hs));
  }

  lemma TimeoutFacts()
    ensures Itoa(0) in MemoOf(TimeoutLog()) && MemoOf(TimeoutLog())[Itoa(0)].result == NULL
    ensures Itoa(1) !in MemoOf(TimeoutLog()) && Answers(TimeoutLog()) == []
  {
    var ev := Result(0, Answer(0, RECV, Success(NULL)));
    assert TimeoutLog() == [] + [ev];
    MemoSnoc([], ev);
    AnswersSnoc([], ev);
    OwnersDiffer();
  }

  /** In-order delivery fails for some lawful history: a message can be consumed and never recorded. */
  lemma MessageLost() returns (hs: seq<Happening>)
    ensures Lawful(Waiter(), hs) && SoleActor(Waiter(), "e")
    ensures LostIn(Waiter(), WorldAfter(Waiter(), hs), "e") && !OrderIn(Waiter(), WorldAfter(Waiter(), hs), "e")
  {
    hs := ClaimsLate();
    TimeoutFacts();
    assert LostRow(Mail(hs), "w", "e", MemoOf(Core(hs).log), 0, Itoa(0));
    MessagesInOrderIff(Waiter(), hs, "e");
  }

  /** The next message arrives, and the holder comes to its next recv. */
  lemma NextArrives() returns (hs: seq<Happening>)
    ensures Lawful(Waiter(), hs) && Mail(hs) == [Hello(Owner(0)), World("")] && Core(hs).log == TimeoutLog() && Holds(Core(hs), 2)
    ensures Runs(Core(hs), 2, Flight(NEXT_RECV, imap[], 1, Missed), View(1, MemoOf(TimeoutLog())))
  {
    hs := ClaimsLate();
    hs := Arrives(hs, WORLD);
    assert Mail(hs) == [Hello(Owner(0)), World("")];
    TimeoutFacts();
    Misses(Core(hs), 2, NEXT_RECV, imap[], 1, View(1, MemoOf(TimeoutLog())));
    hs := QuietStep(hs, Advance(2, []));
  }

  /** It takes that message ... */
  lemma TakesNext() returns (hs: seq<Happening>)
    ensures Lawful(Waiter(), hs) && Mail(hs) == [Hello(Owner(0)), World(Owner(1))] && Core(hs).log == TimeoutLog() && Holds(Core(hs), 2)
    ensures Runs(Core(hs), 2, Flight(NEXT_RECV, imap[], 1, Returned(Success(WORLD))), View(1, MemoOf(TimeoutLog())))
  {
    hs := NextArrives();
    OwnersDiffer();
    LastIsTaken([Hello(Owner(0))], World(""), Owner(1), DeadlineIn(NEXT_RECV.args));
    assert [Hello(Owner(0))] + [World("")] == [Hello(Owner(0)), World("")];
    assert [Hello(Owner(0))] + [World(Owner(1))] == [Hello(Owner(0)), World(Owner(1))];
    hs := Takes(hs, 2, NEXT_RECV, imap[], 1, View(1, MemoOf(TimeoutLog())), WORLD, [Hello(Owner(0)), World(Owner(1))]);
  }

  /** ... and records it. */
  lemma NotesNext() returns (hs: seq<Happening>)
    ensures Lawful(Waiter(), hs) && Mail(hs) == [Hello(Owner(0)), World(Owner(1))]
    ensures Core(hs).log == TimeoutLog() + [Result(1, Answer(1, NEXT_RECV, Success(WORLD)))]
  {
    hs := TakesNext();
    hs := Notes(hs, 2, NEXT_RECV, imap[], 1, WORLD);
  }

  lemma TwoSent(a: string, b: string)
    ensures NonNull(Sent([Hello(a), World(b)], "w")) == [HELLO, WORLD]
  {
    var rows := [Hello(a), World(b)];
    assert rows[..1] == [rows[0]] && rows[..1][..0] == [];
    assert Sent(rows[..1], "w") == [HELLO] && Sent(rows, "w") == [HELLO] + [WORLD];
    assert [HELLO] == [] + [HELLO];
    NonNullSnoc([], HELLO);
    NonNullSnoc([HELLO], WORLD);
  }

  lemma OnlySecondAnswered()
    ensures Answers(TimeoutLog() + [Result(1, Answer(1, NEXT_RECV, Success(WORLD)))]) == [WORLD]
  {
    TimeoutFacts();
    AnswersSnoc(TimeoutLog(), Result(1, Answer(1, NEXT_RECV, Success(WORLD))));
  }

  /** What is received need not even be a prefix of what was sent: of two messages, only the second
      is ever recorded. */
  lemma MessageSkipped() returns (hs: seq<Happening>)
    ensures Lawful(Waiter(), hs) && SoleActor(Waiter(), "e")
    ensures NonNull(Sent(WorldAfter(Waiter(), hs).rows, "w")) == [HELLO, WORLD]
    ensures Answers(StateOf(WorldAfter(Waiter(), hs), "e").log) == [WORLD]
    ensures SkippedIn(Waiter(), WorldAfter(Waiter(), hs), "e")
  {
    hs := NotesNext();
    TwoSent(Owner(0), Owner(1));
    OnlySecondAnswered();
    ValuesPrefixIff(Waiter(), hs, "e");
    assert [WORLD][0] != [HELLO, WORLD][0];
  }
}
