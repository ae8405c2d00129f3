/** The durable per-workspace message queue, and the recv/send executor over it. */
module Inboxes {
  import opened Types

  /** A row of the inbox table; `consumedBy` is empty until a call claims the message. */
  datatype Row = Row(id: nat, workspace: string, data: string, consumedBy: string)

  predicate Is(r: Row, ws: string, key: string) {
    r.workspace == ws && r.consumedBy == key
  }

  /** The oldest row of a workspace with this consumer. */
  function First(rows: seq<Row>, ws: string, key: string): (i: Option<nat>)
    ensures i.Some? ==> i.value < |rows| && Is(rows[i.value], ws, key) && forall k :: 0 <= k < i.value ==> !Is(rows[k], ws, key)
    ensures i.None? ==> forall k :: 0 <= k < |rows| ==> !Is(rows[k], ws, key)
  {
    if rows == [] then None else
      var n := |rows| - 1;
      match First(rows[..n], ws, key)
      case Some(i) => Some(i)
      case None => if Is(rows[n], ws, key) then Some(n) else None
  }

  function EnqueueModel(rows: seq<Row>, id: nat, ws: string, data: string): seq<Row> {
    rows + [Row(id, ws, if data == "" then "null" else data, "")]
  }

  function ClaimModel(rows: seq<Row>, ws: string, key: string): (Option<string>, seq<Row>) {
    match First(rows, ws, key)
    case Some(i) => (Some(rows[i].data), rows)
    case None =>
      match First(rows, ws, "")
      case None => (None, rows)
      case Some(j) => (Some(rows[j].data), rows[j := rows[j].(consumedBy := key)])
  }

  /** Unconsumed messages of a workspace. */
  function Depth(rows: seq<Row>, ws: string): nat {
    if rows == [] then 0 else
      var n := |rows| - 1;
      Depth(rows[..n], ws) + if Is(rows[n], ws, "") then 1 else 0
  }

  ghost function Unconsumed(rows: seq<Row>, ws: string): set<nat> {
    set i: nat | i < |rows| && Is(rows[i], ws, "")
  }

  lemma UnconsumedLast(rows: seq<Row>, ws: string)
    requires rows != []
    ensures |Unconsumed(rows, ws)| == |Unconsumed(rows[..|rows| - 1], ws)| + if Is(rows[|rows| - 1], ws, "") then 1 else 0
  {
    var n := |rows| - 1;
    assert Unconsumed(rows, ws) == Unconsumed(rows[..n], ws) + if Is(rows[n], ws, "") then {n} else {};
  }

  lemma {:induction false} DepthCounts(rows: seq<Row>, ws: string)
    ensures Depth(rows, ws) == |Unconsumed(rows, ws)|
  {
    if rows != [] {
      DepthCounts(rows[..|rows| - 1], ws);
      UnconsumedLast(rows, ws);
    }
  }

  class Inbox {
    var rows: seq<Row>
    var nextId: nat

    constructor ()
      ensures rows == [] && nextId == 1
    {
      rows, nextId := [], 1;
    }

    method Enqueue(ws: string, data: string)
      modifies this
      ensures rows == EnqueueModel(old(rows), old(nextId), ws, data) && nextId == old(nextId) + 1
      ensures rows == old(rows) + [Row(old(nextId), ws, if |data| == 0 then "null" else data, "")]
    {
      var payload := data;
      if |payload| == 0 { payload := "null"; }
      rows := rows + [Row(nextId, ws, payload, "")];
      nextId := nextId + 1;
    }

    method Claim(ws: string, key: string) returns (msg: Option<string>)
      modifies this`rows
      ensures (msg, rows) == ClaimModel(old(rows), ws, key)
    {
      var mine := First(rows, ws, key);
      if mine.Some? { return Some(rows[mine.value].data); }
      var oldest := First(rows, ws, "");
      if oldest.None? { return None; }
      var i := oldest.value;
      msg := Some(rows[i].data);
      rows := rows[i := rows[i].(consumedBy := key)];
    }

    /** The number of unconsumed messages of a workspace. */
    method InboxDepth(ws: string) returns (n: nat)
      ensures n == |Unconsumed(rows, ws)| == Depth(rows, ws)
    {
      n := 0;
      for i := 0 to |rows|
        invariant n == Depth(rows[..i], ws)
      {
        assert rows[..i + 1][..i] == rows[..i];
        if Is(rows[i], ws, "") { n := n + 1; }
      }
      assert rows[..|rows|] == rows;
      DepthCounts(rows, ws);
    }
  }

  // ---- The queue a workspace sees

  /** A workspace's messages in order of arrival, and the keys that took the first |owners|. */
  datatype Queue = Queue(sent: seq<string>, owners: seq<string>)

  function IndexOf(keys: seq<string>, key: string): (i: Option<nat>)
    ensures i.Some? ==> i.value < |keys| && keys[i.value] == key && forall k :: 0 <= k < i.value ==> keys[k] != key
    ensures i.None? ==> key !in keys
  {
    if keys == [] then None else
      var n := |keys| - 1;
      match IndexOf(keys[..n], key)
      case Some(i) => Some(i)
      case None => if keys[n] == key then Some(n) else None
  }

  /** The reference: a key that took a message gets it again; otherwise it takes the next one. */
  function Take(q: Queue, key: string): (Option<string>, Queue)
    requires |q.owners| <= |q.sent|
  {
    match IndexOf(q.owners, key)
    case Some(i) => (Some(q.sent[i]), q)
    case None =>
      if |q.owners| == |q.sent| then (None, q)
      else (Some(q.sent[|q.owners|]), q.(owners := q.owners + [key]))
  }

  function Sent(rows: seq<Row>, ws: string): seq<string> {
    if rows == [] then [] else
      var n := |rows| - 1;
      Sent(rows[..n], ws) + if rows[n].workspace == ws then [rows[n].data] else []
  }

  function Owners(rows: seq<Row>, ws: string): seq<string> {
    if rows == [] then [] else
      var n := |rows| - 1;
      Owners(rows[..n], ws) + if rows[n].workspace == ws && rows[n].consumedBy != "" then [rows[n].consumedBy] else []
  }

  function QueueOf(rows: seq<Row>, ws: string): Queue {
    Queue(Sent(rows, ws), Owners(rows, ws))
  }

  /** The consumed rows of a workspace come first, each under a key of its own. */
  ghost predicate Fifo(rows: seq<Row>, ws: string) {
    && (forall i, j :: 0 <= i < j < |rows| && rows[i].workspace == ws && rows[j].workspace == ws && rows[j].consumedBy != ""
                       ==> rows[i].consumedBy != "")
    && (forall i, j :: 0 <= i < j < |rows| && rows[i].workspace == ws && rows[j].workspace == ws && rows[j].consumedBy != ""
                       ==> rows[i].consumedBy != rows[j].consumedBy)
  }

  lemma {:induction false} SentConcat(a: seq<Row>, b: seq<Row>, ws: string)
    ensures Sent(a + b, ws) == Sent(a, ws) + Sent(b, ws)
  {
    if b == [] {
      assert a + b == a;
    } else {
      var n := |b| - 1;
      assert (a + b)[..|a + b| - 1] == a + b[..n] && (a + b)[|a + b| - 1] == b[n];
      SentConcat(a, b[..n], ws);
    }
  }

  lemma {:induction false} OwnersConcat(a: seq<Row>, b: seq<Row>, ws: string)
    ensures Owners(a + b, ws) == Owners(a, ws) + Owners(b, ws)
  {
    if b == [] {
      assert a + b == a;
    } else {
      var n := |b| - 1;
      assert (a + b)[..|a + b| - 1] == a + b[..n] && (a + b)[|a + b| - 1] == b[n];
      OwnersConcat(a, b[..n], ws);
    }
  }

  /** With every row of the workspace consumed, owners and messages pair up. */
  lemma {:induction false} AllConsumed(rows: seq<Row>, ws: string)
    requires forall i :: 0 <= i < |rows| && rows[i].workspace == ws ==> rows[i].consumedBy != ""
    ensures |Owners(rows, ws)| == |Sent(rows, ws)|
  {
    if rows != [] { AllConsumed(rows[..|rows| - 1], ws); }
  }

  lemma {:induction false} NoneConsumed(rows: seq<Row>, ws: string)
    requires forall i :: 0 <= i < |rows| && rows[i].workspace == ws ==> rows[i].consumedBy == ""
    ensures Owners(rows, ws) == [] && Depth(rows, ws) == |Sent(rows, ws)|
  {
    if rows != [] { NoneConsumed(rows[..|rows| - 1], ws); }
  }

  lemma {:induction false} OwnersAreRows(rows: seq<Row>, ws: string, key: string)
    ensures key in Owners(rows, ws) <==> key != "" && exists i :: 0 <= i < |rows| && Is(rows[i], ws, key)
  {
    if rows != [] {
      var n := |rows| - 1;
      OwnersAreRows(rows[..n], ws, key);
      if key in Owners(rows, ws) {
        if key in Owners(rows[..n], ws) {
          var i :| 0 <= i < n && Is(rows[..n][i], ws, key);
          assert Is(rows[i], ws, key);
        } else {
          assert Is(rows[n], ws, key);
        }
      }
      if key != "" && exists i :: 0 <= i < |rows| && Is(rows[i], ws, key) {
        var i :| 0 <= i < |rows| && Is(rows[i], ws, key);
        if i < n { assert Is(rows[..n][i], ws, key); }
      }
    }
  }

  /** What one row contributes to the queue of a workspace. */
  lemma OneRow(r: Row, ws: string)
    ensures Sent([r], ws) == if r.workspace == ws then [r.data] else []
    ensures Owners([r], ws) == if r.workspace == ws && r.consumedBy != "" then [r.consumedBy] else []
  {
    assert [r][..0] == [];
  }

  lemma RowSplits(rows: seq<Row>, ws: string, i: nat)
    requires i < |rows|
    ensures Sent(rows, ws) == Sent(rows[..i], ws) + Sent([rows[i]], ws) + Sent(rows[i + 1..], ws)
    ensures Owners(rows, ws) == Owners(rows[..i], ws) + Owners([rows[i]], ws) + Owners(rows[i + 1..], ws)
  {
    assert rows == rows[..i] + [rows[i]] + rows[i + 1..];
    SentConcat(rows[..i] + [rows[i]], rows[i + 1..], ws);
    SentConcat(rows[..i], [rows[i]], ws);
    OwnersConcat(rows[..i] + [rows[i]], rows[i + 1..], ws);
    OwnersConcat(rows[..i], [rows[i]], ws);
  }

  /** Behind a consumed row, the owners are as many as the messages. */
  lemma ConsumedBefore(rows: seq<Row>, ws: string, i: nat)
    requires Fifo(rows, ws) && i < |rows| && rows[i].workspace == ws && rows[i].consumedBy != ""
    ensures |Owners(rows[..i], ws)| == |Sent(rows[..i], ws)|
  {
    AllConsumed(rows[..i], ws);
  }

  /** From an unconsumed row on, there are no owners. */
  lemma UnconsumedAfter(rows: seq<Row>, ws: string, i: nat)
    requires Fifo(rows, ws) && i < |rows| && rows[i].workspace == ws && rows[i].consumedBy == ""
    ensures Owners(rows[i + 1..], ws) == [] && |Owners(rows[..i], ws)| <= |Sent(rows[..i], ws)|
    ensures First(rows, ws, "") == Some(i) ==> |Owners(rows[..i], ws)| == |Sent(rows[..i], ws)|
  {
    NoneConsumed(rows[i + 1..], ws);
    OwnersFit(rows[..i], ws);
    if First(rows, ws, "") == Some(i) {
      forall k | 0 <= k < i && rows[..i][k].workspace == ws ensures rows[..i][k].consumedBy != "" {
        assert !Is(rows[k], ws, "");
      }
      AllConsumed(rows[..i], ws);
    }
  }

  lemma MiddleAt(a: seq<string>, x: string, b: seq<string>)
    ensures |a| < |a + [x] + b| && (a + [x] + b)[|a|] == x
  {
  }

  /** Where a row of the workspace stands in the queue: behind `Sent(rows[..i])`. */
  lemma RowInQueue(rows: seq<Row>, ws: string, i: nat)
    requires Fifo(rows, ws) && i < |rows| && rows[i].workspace == ws
    ensures var at := |Sent(rows[..i], ws)|;
            && at < |Sent(rows, ws)| && Sent(rows, ws)[at] == rows[i].data
            && (rows[i].consumedBy != "" ==> at < |Owners(rows, ws)| && Owners(rows, ws)[at] == rows[i].consumedBy)
            && (rows[i].consumedBy == "" ==> |Owners(rows, ws)| <= at)
            && (rows[i].consumedBy == "" && First(rows, ws, "") == Some(i) ==> |Owners(rows, ws)| == at)
  {
    RowSplits(rows, ws, i);
    OneRow(rows[i], ws);
    MiddleAt(Sent(rows[..i], ws), rows[i].data, Sent(rows[i + 1..], ws));
    if rows[i].consumedBy != "" {
      ConsumedBefore(rows, ws, i);
      MiddleAt(Owners(rows[..i], ws), rows[i].consumedBy, Owners(rows[i + 1..], ws));
    } else {
      UnconsumedAfter(rows, ws, i);
    }
  }

  lemma {:induction false} OwnersFit(rows: seq<Row>, ws: string)
    ensures |Owners(rows, ws)| + Depth(rows, ws) == |Sent(rows, ws)|
  {
    if rows != [] { OwnersFit(rows[..|rows| - 1], ws); }
  }

  /** Updating the consumer of one row. */
  lemma ConsumeRow(rows: seq<Row>, i: nat, key: string, ws: string)
    requires i < |rows| && rows[i].consumedBy == "" && key != ""
    ensures var rows' := rows[i := rows[i].(consumedBy := key)];
            && Sent(rows', ws) == Sent(rows, ws)
            && (rows[i].workspace != ws ==> Owners(rows', ws) == Owners(rows, ws))
            && (rows[i].workspace == ws && First(rows, ws, "") == Some(i) && Fifo(rows, ws) ==> Owners(rows', ws) == Owners(rows, ws) + [key])
  {
    var rows' := rows[i := rows[i].(consumedBy := key)];
    RestStays(rows, i, rows[i].(consumedBy := key));
    RowSplits(rows, ws, i);
    RowSplits(rows', ws, i);
    OneRow(rows[i], ws);
    OneRow(rows'[i], ws);
    if rows[i].workspace == ws && First(rows, ws, "") == Some(i) && Fifo(rows, ws) {
      UnconsumedAfter(rows, ws, i);
      JoinsLast(Owners(rows[..i], ws), key);
    }
  }

  lemma JoinsLast(a: seq<string>, x: string)
    ensures a + [x] + [] == (a + [] + []) + [x]
  {
  }

  lemma RestStays(rows: seq<Row>, i: nat, r: Row)
    requires i < |rows|
    ensures rows[i := r][..i] == rows[..i] && rows[i := r][i + 1..] == rows[i + 1..]
  {
  }

  /** Claiming from the table is taking from the workspace's queue, and touches no other workspace. */
  lemma ClaimIsTake(rows: seq<Row>, ws: string, key: string)
    requires Fifo(rows, ws) && key != ""
    ensures |Owners(rows, ws)| <= |Sent(rows, ws)|
    ensures var c := ClaimModel(rows, ws, key);
            && (c.0, QueueOf(c.1, ws)) == Take(QueueOf(rows, ws), key)
            && Fifo(c.1, ws)
            && forall other :: other != ws ==> QueueOf(c.1, other) == QueueOf(rows, other) && (Fifo(rows, other) ==> Fifo(c.1, other))
  {
    OwnersFit(rows, ws);
    OwnersAreRows(rows, ws, key);
    var q := QueueOf(rows, ws);
    match First(rows, ws, key)
    case Some(i) =>
      RowInQueue(rows, ws, i);
      OwnersDistinct(rows, ws);
    case None =>
      assert key !in q.owners;
      match First(rows, ws, "")
      case None =>
        forall i | 0 <= i < |rows| && rows[i].workspace == ws ensures rows[i].consumedBy != "" { assert !Is(rows[i], ws, ""); }
        AllConsumed(rows, ws);
      case Some(j) =>
        RowInQueue(rows, ws, j);
        ConsumeRow(rows, j, key, ws);
        forall other | other != ws ensures QueueOf(ClaimModel(rows, ws, key).1, other) == QueueOf(rows, other) {
          ConsumeRow(rows, j, key, other);
        }
        ClaimKeepsFifo(rows, ws, key, j);
  }

  lemma ClaimKeepsFifo(rows: seq<Row>, ws: string, key: string, j: nat)
    requires Fifo(rows, ws) && key != "" && First(rows, ws, key).None? && First(rows, ws, "") == Some(j)
    ensures Fifo(rows[j := rows[j].(consumedBy := key)], ws)
    ensures forall other :: other != ws && Fifo(rows, other) ==> Fifo(rows[j := rows[j].(consumedBy := key)], other)
  {
    var rows' := rows[j := rows[j].(consumedBy := key)];
    forall a, b | 0 <= a < b < |rows'| && rows'[a].workspace == ws && rows'[b].workspace == ws && rows'[b].consumedBy != ""
      ensures rows'[a].consumedBy != "" && rows'[a].consumedBy != rows'[b].consumedBy
    {
      assert !Is(rows[a], ws, key) && !Is(rows[b], ws, key);
      if b == j { assert !Is(rows[a], ws, ""); }
    }
  }

  lemma {:induction false} OwnersDistinct(rows: seq<Row>, ws: string)
    requires Fifo(rows, ws)
    ensures forall a, b :: 0 <= a < b < |Owners(rows, ws)| ==> Owners(rows, ws)[a] != Owners(rows, ws)[b]
  {
    if rows != [] {
      var n := |rows| - 1;
      OwnersDistinct(rows[..n], ws);
      if rows[n].workspace == ws && rows[n].consumedBy != "" {
        OwnersAreRows(rows[..n], ws, rows[n].consumedBy);
        assert forall k :: 0 <= k < n ==> rows[..n][k] == rows[k];
      }
    }
  }

  // ---- Whole histories of one database

  datatype InboxOp = Send(ws: string, data: string) | Receive(ws: string, key: string)

  function RowsAfter(ops: seq<InboxOp>): seq<Row> {
    if ops == [] then [] else
      var rows := RowsAfter(ops[..|ops| - 1]);
      match ops[|ops| - 1]
      case Send(ws, data) => EnqueueModel(rows, |ops|, ws, data)
      case Receive(ws, key) => ClaimModel(rows, ws, key).1
  }

  /** What one workspace sees of the same history. */
  function QueueAfter(ops: seq<InboxOp>, ws: string): (q: Queue)
    ensures |q.owners| <= |q.sent|
  {
    if ops == [] then Queue([], []) else
      var q := QueueAfter(ops[..|ops| - 1], ws);
      match ops[|ops| - 1]
      case Send(w, data) => if w == ws then q.(sent := q.sent + [if data == "" then "null" else data]) else q
      case Receive(w, key) => if w == ws then Take(q, key).1 else q
  }

  lemma EnqueueIsSend(rows: seq<Row>, id: nat, w: string, data: string, ws: string)
    requires Fifo(rows, ws)
    ensures var rows' := EnqueueModel(rows, id, w, data);
            && Fifo(rows', ws)
            && QueueOf(rows', ws) == (if w == ws then Queue(Sent(rows, ws) + [if data == "" then "null" else data], Owners(rows, ws))
                                      else QueueOf(rows, ws))
  {
    assert EnqueueModel(rows, id, w, data)[..|rows|] == rows;
  }

  /** Over any history of sends and claims with non-empty keys, on any workspaces, the table is
      one independent first-in-first-out queue per workspace: consumed messages are the oldest
      ones, each key owns at most one and each message has at most one owner; enqueued messages
      are the consumed ones and the depth. */
  lemma {:induction false} TableIsQueues(ops: seq<InboxOp>, ws: string)
    requires forall i :: 0 <= i < |ops| && ops[i].Receive? ==> ops[i].key != ""
    ensures var rows := RowsAfter(ops); var q := QueueAfter(ops, ws);
            && Fifo(rows, ws) && QueueOf(rows, ws) == q
            && (forall a, b :: 0 <= a < b < |q.owners| ==> q.owners[a] != q.owners[b])
            && |q.sent| == |q.owners| + Depth(rows, ws)
  {
    if ops != [] {
      var n := |ops| - 1;
      var rows := RowsAfter(ops[..n]);
      TableIsQueues(ops[..n], ws);
      match ops[n]
      case Send(w, data) => EnqueueIsSend(rows, |ops|, w, data, ws);
      case Receive(w, key) =>
        TableIsQueues(ops[..n], w);
        ClaimIsTake(rows, w, key);
    }
    OwnersFit(RowsAfter(ops), ws);
    OwnersDistinct(RowsAfter(ops), ws);
  }

  /** The ids rise up to at most `last`. */
  ghost predicate Rising(rows: seq<Row>, last: nat) {
    && (forall i :: 0 <= i < |rows| ==> rows[i].id <= last)
    && (forall i, j :: 0 <= i < j < |rows| ==> rows[i].id < rows[j].id)
  }

  lemma EnqueueRises(rows: seq<Row>, last: nat, ws: string, data: string)
    requires Rising(rows, last)
    ensures Rising(EnqueueModel(rows, last + 1, ws, data), last + 1)
  {
  }

  lemma ClaimRises(rows: seq<Row>, last: nat, ws: string, key: string)
    requires Rising(rows, last)
    ensures Rising(ClaimModel(rows, ws, key).1, last + 1)
  {
    var rows' := ClaimModel(rows, ws, key).1;
    assert forall i :: 0 <= i < |rows| ==> rows'[i].id == rows[i].id;
  }

  /** The table is in the order of its ids, which is the order of arrival. */
  lemma {:induction false} IdsRise(ops: seq<InboxOp>)
    ensures Rising(RowsAfter(ops), |ops|)
  {
    if ops != [] {
      var n := |ops| - 1;
      IdsRise(ops[..n]);
      match ops[n]
      case Send(ws, data) => EnqueueRises(RowsAfter(ops[..n]), n, ws, data);
      case Receive(ws, key) => ClaimRises(RowsAfter(ops[..n]), n, ws, key);
    }
  }

  /** A claim that succeeded can be repeated: same message, nothing changes. */
  lemma ClaimAgain(rows: seq<Row>, ws: string, key: string)
    requires ClaimModel(rows, ws, key).0.Some?
    ensures var c := ClaimModel(rows, ws, key); ClaimModel(c.1, ws, key) == c
  {
    var c := ClaimModel(rows, ws, key);
    if First(rows, ws, key).None? {
      var j := First(rows, ws, "").value;
      assert Is(c.1[j], ws, key);
      assert forall k :: 0 <= k < |rows| && k != j ==> !Is(c.1[k], ws, key);
    }
  }

  /** With a message waiting and none of its own, a claim consumes one exactly when its key is
      not empty: the empty key finds unconsumed rows as if it owned them. */
  lemma ClaimConsumesIff(rows: seq<Row>, ws: string, key: string)
    requires Fifo(rows, ws) && Depth(rows, ws) > 0 && key !in Owners(rows, ws)
    ensures ClaimModel(rows, ws, key).0.Some?
    ensures Depth(ClaimModel(rows, ws, key).1, ws) == Depth(rows, ws) - 1 <==> key != ""
  {
    OwnersAreRows(rows, ws, key);
    OwnersFit(rows, ws);
    if First(rows, ws, "").None? {
      forall i | 0 <= i < |rows| && rows[i].workspace == ws ensures rows[i].consumedBy != "" { assert !Is(rows[i], ws, ""); }
      AllConsumed(rows, ws);
    }
    if key != "" {
      ClaimIsTake(rows, ws, key);
      OwnersFit(ClaimModel(rows, ws, key).1, ws);
    }
  }

  // ---- The recv/send executor

  const NULL := "null"

  /** recv: the claimed message; null once the deadline has passed; otherwise park. */
  function RecvModel(rows: seq<Row>, ws: string, key: string, deadline: int, now: int): (Outcome, seq<Row>) {
    var c := ClaimModel(rows, ws, key);
    if c.0.Some? then (Success(c.0.value), c.1)
    else if deadline > 0 && now >= deadline then (Success(NULL), c.1)
    else (Suspended(ws, deadline), c.1)
  }

  /** Messages wait exactly when there is an oldest one. */
  lemma {:induction false} WaitingIff(rows: seq<Row>, ws: string)
    ensures Depth(rows, ws) > 0 <==> First(rows, ws, "").Some?
  {
    if rows != [] { WaitingIff(rows[..|rows| - 1], ws); }
  }

  /** A recv whose key owns no message: it waits exactly when no message does and its deadline, if it
      has one, lies ahead; it answers null exactly on an empty inbox after the deadline; otherwise it
      takes the oldest waiting message. */
  lemma RecvWaitsIff(rows: seq<Row>, ws: string, key: string, deadline: int, now: int)
    requires forall i :: 0 <= i < |rows| ==> !Is(rows[i], ws, key)
    ensures var (o, rows') := RecvModel(rows, ws, key, deadline, now); var over := deadline > 0 && now >= deadline;
            && (o.Suspended? <==> Depth(rows, ws) == 0 && !over)
            && (o.Suspended? ==> o == Suspended(ws, deadline) && rows' == rows)
            && (Depth(rows, ws) == 0 && over ==> o == Success(NULL) && rows' == rows)
            && (Depth(rows, ws) > 0 ==> exists j :: 0 <= j < |rows| && Taking(rows, ws, key, j, o, rows'))
  {
    WaitingIff(rows, ws);
    assert First(rows, ws, key).None?;
    if Depth(rows, ws) > 0 {
      assert Taking(rows, ws, key, First(rows, ws, "").value, RecvModel(rows, ws, key, deadline, now).0, RecvModel(rows, ws, key, deadline, now).1);
    }
  }

  /** A recv with this key and deadline would have to wait. */
  ghost predicate Waits(rows: seq<Row>, ws: string, key: string, deadline: int, now: int) {
    (forall i :: 0 <= i < |rows| ==> !Is(rows[i], ws, key)) && Depth(rows, ws) == 0 && !(deadline > 0 && now >= deadline)
  }

  lemma SuspendsIff(rows: seq<Row>, ws: string, key: string, deadline: int, now: int)
    ensures RecvModel(rows, ws, key, deadline, now).0.Suspended? <==> Waits(rows, ws, key, deadline, now)
  {
    if First(rows, ws, key).Some? {
      assert Is(rows[First(rows, ws, key).value], ws, key);
    } else {
      RecvWaitsIff(rows, ws, key, deadline, now);
    }
  }

  /** Row `j` is the oldest waiting message, and goes to `key`. */
  ghost predicate Taking(rows: seq<Row>, ws: string, key: string, j: int, o: Outcome, rows': seq<Row>)
    requires 0 <= j < |rows|
  {
    && Is(rows[j], ws, "") && (forall k :: 0 <= k < j ==> !Is(rows[k], ws, ""))
    && o == Success(rows[j].data) && rows' == rows[j := rows[j].(consumedBy := key)]
  }

  /** A recv whose key owns a message gets that message again, at any time, and changes nothing. */
  lemma RecvAgain(rows: seq<Row>, ws: string, key: string, deadline: int, now: int, i: nat)
    requires Fifo(rows, ws) && key != "" && i < |rows| && Is(rows[i], ws, key)
    ensures RecvModel(rows, ws, key, deadline, now) == (Success(rows[i].data), rows)
  {
    assert First(rows, ws, key).Some?;
  }

  class InboxExecutor {
    const q: Inbox
    const workspace: string

    constructor (q: Inbox, workspace: string)
      ensures this.q == q && this.workspace == workspace
    {
      this.q, this.workspace := q, workspace;
    }

    /** `target`, `data` and `deadline` are the decoded arguments. */
    method Execute(operation: string, target: string, data: string, deadline: int, key: string, now: int) returns (o: Outcome)
      modifies q
      ensures operation == "recv" ==> (o, q.rows) == RecvModel(old(q.rows), workspace, key, deadline, now) && q.nextId == old(q.nextId)
      ensures operation == "send" ==>
                (o == Success(NULL) && q.rows == EnqueueModel(old(q.rows), old(q.nextId), if target == "" then workspace else target, data)
                 && q.nextId == old(q.nextId) + 1)
      ensures operation !in {"recv", "send"} ==> o == Success(NULL) && q.rows == old(q.rows) && q.nextId == old(q.nextId)
    {
      if operation == "send" {
        q.Enqueue(if target == "" then workspace else target, data);
        return Success(NULL);
      } else if operation == "recv" {
        var msg := q.Claim(workspace, key);
        if msg.Some? { return Success(msg.value); }
        if deadline > 0 && now >= deadline { return Success(NULL); }
        return Suspended(workspace, deadline);
      }
      o := Success(NULL);
    }
  }
}
