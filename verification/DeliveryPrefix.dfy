/** The messages one sequential execution receives, whatever is lost: exactly the first ones sent
    unless a lost message lies before a received one. */
module DeliveryPrefix {
  import opened Types
  import opened Logs
  import opened Inboxes
  import opened Delivery
  import opened DeliveryOrder

  /** The places of the selected rows, in order. */
  ghost function Numbers(rows: seq<Row>, sel: Row -> bool): seq<nat> {
    if rows == [] then [] else
      var n := |rows| - 1;
      Numbers(rows[..n], sel) + if sel(rows[n]) then [n] else []
  }

  lemma {:induction false} NumbersFacts(rows: seq<Row>, sel: Row -> bool)
    ensures |Numbers(rows, sel)| == |Pick(rows, sel)|
    ensures forall k :: 0 <= k < |Numbers(rows, sel)| ==>
              Numbers(rows, sel)[k] < |rows| && sel(rows[Numbers(rows, sel)[k]]) && Pick(rows, sel)[k] == rows[Numbers(rows, sel)[k]].data
  {
    if rows != [] {
      var n := |rows| - 1;
      NumbersFacts(rows[..n], sel);
    }
  }

  lemma {:induction false} NumbersRise(rows: seq<Row>, sel: Row -> bool)
    ensures forall j, k :: 0 <= j < k < |Numbers(rows, sel)| ==> Numbers(rows, sel)[j] < Numbers(rows, sel)[k]
  {
    if rows != [] {
      NumbersRise(rows[..|rows| - 1], sel);
      NumbersFacts(rows[..|rows| - 1], sel);
    }
  }

  /** Where row `i` stands among the selected ones. */
  lemma {:induction false} NumberOf(rows: seq<Row>, sel: Row -> bool, i: nat) returns (k: nat)
    requires i < |rows| && sel(rows[i])
    ensures k < |Numbers(rows, sel)| && Numbers(rows, sel)[k] == i
  {
    var n := |rows| - 1;
    if i < n { k := NumberOf(rows[..n], sel, i); } else { k := |Numbers(rows[..n], sel)|; }
  }

  lemma {:induction false} SameNumbers(rows: seq<Row>, sel: Row -> bool, all: Row -> bool)
    requires forall i :: 0 <= i < |rows| ==> sel(rows[i]) == all(rows[i])
    ensures Numbers(rows, sel) == Numbers(rows, all)
  {
    if rows != [] { SameNumbers(rows[..|rows| - 1], sel, all); }
  }

  /** No unselected row lies before a selected one. */
  ghost predicate Closed(rows: seq<Row>, sel: Row -> bool, all: Row -> bool) {
    forall i, j :: 0 <= i < j < |rows| && all(rows[i]) && sel(rows[j]) ==> sel(rows[i])
  }

  lemma {:induction false} ClosedIsFirst(rows: seq<Row>, sel: Row -> bool, all: Row -> bool)
    requires (forall r :: sel(r) ==> all(r)) && Closed(rows, sel, all)
    ensures Numbers(rows, sel) <= Numbers(rows, all)
  {
    if rows != [] {
      var n := |rows| - 1;
      if sel(rows[n]) {
        SameNumbers(rows[..n], sel, all);
      } else {
        ClosedIsFirst(rows[..n], sel, all);
      }
    }
  }

  lemma FirstIsClosed(rows: seq<Row>, sel: Row -> bool, all: Row -> bool, i: nat, j: nat)
    requires Numbers(rows, sel) <= Numbers(rows, all) && i < j < |rows| && all(rows[i]) && sel(rows[j])
    ensures sel(rows[i])
  {
    var k := NumberOf(rows, all, i);
    var l := NumberOf(rows, sel, j);
    NumbersRise(rows, all);
    assert Numbers(rows, all)[l] == j;
    assert Numbers(rows, sel)[k] == i;
    NumbersFacts(rows, sel);
  }

  /** A selection consists of the first ones exactly when no unselected row lies before a selected one. */
  lemma FirstOnesIff(rows: seq<Row>, sel: Row -> bool, all: Row -> bool)
    requires forall r :: sel(r) ==> all(r)
    ensures Numbers(rows, sel) <= Numbers(rows, all) <==> Closed(rows, sel, all)
  {
    if Closed(rows, sel, all) {
      ClosedIsFirst(rows, sel, all);
    } else {
      var i, j :| 0 <= i < j < |rows| && all(rows[i]) && sel(rows[j]) && !sel(rows[i]);
      if Numbers(rows, sel) <= Numbers(rows, all) { FirstIsClosed(rows, sel, all, i, j); }
    }
  }

  /** The values sent to a workspace. */
  ghost function Valued(ws: string): Row -> bool {
    (r: Row) => r.workspace == ws && r.data != NULL
  }

  lemma {:induction false} ValuesAreSent(rows: seq<Row>, ws: string)
    ensures Pick(rows, Valued(ws)) == NonNull(Sent(rows, ws))
  {
    if rows != [] {
      var n := |rows| - 1;
      ValuesAreSent(rows[..n], ws);
      if rows[n].workspace == ws {
        NonNullSnoc(Sent(rows[..n], ws), rows[n].data);
      } else {
        assert Sent(rows, ws) == Sent(rows[..n], ws);
      }
    }
  }

  /** A lost message lies before a received one. */
  ghost predicate SkippedOver(rows: seq<Row>, ws: string, id: string, memo: map<string, RPCRecord>) {
    exists i, key, j :: LostRow(rows, ws, id, memo, i, key) && i < j < |rows| && Given(ws, id, memo)(rows[j])
  }

  /** A value that lies before a received one and is not received itself was lost. */
  lemma PassedOverIsLost(rows: seq<Row>, ws: string, id: string, memo: map<string, RPCRecord>, i: nat, j: nat) returns (key: string)
    requires Fifo(rows, ws) && OpenLast(rows, ws, id, memo) && i < j < |rows|
    requires Valued(ws)(rows[i]) && Given(ws, id, memo)(rows[j]) && !Given(ws, id, memo)(rows[i])
    ensures LostRow(rows, ws, id, memo, i, key)
  {
    assert rows[i].consumedBy != "";
    assert !Open(ws, id, memo)(rows[i]);
    key :| key in memo && rows[i].consumedBy == IdemKey(id, key);
  }

  lemma ClosedIff(rows: seq<Row>, ws: string, id: string, memo: map<string, RPCRecord>)
    requires Fifo(rows, ws) && OpenLast(rows, ws, id, memo)
    ensures Closed(rows, Given(ws, id, memo), Valued(ws)) <==> !SkippedOver(rows, ws, id, memo)
  {
    var sel, all := Given(ws, id, memo), Valued(ws);
    if !Closed(rows, sel, all) {
      var i, j :| 0 <= i < j < |rows| && all(rows[i]) && sel(rows[j]) && !sel(rows[i]);
      var key := PassedOverIsLost(rows, ws, id, memo, i, j);
    }
    if SkippedOver(rows, ws, id, memo) {
      var i, key, j :| LostRow(rows, ws, id, memo, i, key) && i < j < |rows| && sel(rows[j]);
      ReceivedIff(ws, id, memo, rows[i], key);
      assert all(rows[i]) && !sel(rows[i]);
    }
  }

  ghost predicate SkippedIn(f: Fleet, w: World, e: string)
    requires e in f.sites
  {
    SkippedOver(w.rows, f.sites[e].workspace, f.sites[e].sys.id, MemoOf(StateOf(w, e).log))
  }

  /** The places of the messages the execution has received, and of all values sent to it. */
  ghost function ReceivedPlaces(f: Fleet, w: World, e: string): seq<nat>
    requires e in f.sites
  {
    Numbers(w.rows, Given(f.sites[e].workspace, f.sites[e].sys.id, MemoOf(StateOf(w, e).log)))
  }

  ghost function SentPlaces(f: Fleet, w: World, e: string): seq<nat>
    requires e in f.sites
  {
    Numbers(w.rows, Valued(f.sites[e].workspace))
  }

  /** In every history, whatever is lost: the recorded values are the received messages in order of
      arrival. */
  lemma ReceivedInOrder(f: Fleet, hs: seq<Happening>, e: string)
    requires Lawful(f, hs) && SoleActor(f, e)
    ensures var w := WorldAfter(f, hs); var places, answers := ReceivedPlaces(f, w, e), Answers(StateOf(w, e).log);
            && |answers| == |places|
            && (forall k :: 0 <= k < |places| ==> places[k] < |w.rows| && answers[k] == w.rows[places[k]].data)
            && (forall j, k :: 0 <= j < k < |places| ==> places[j] < places[k])
  {
    AlwaysInArrivalOrder(f, hs, e);
    var w, site := WorldAfter(f, hs), f.sites[e];
    NumbersFacts(w.rows, Given(site.workspace, site.sys.id, MemoOf(StateOf(w, e).log)));
    NumbersRise(w.rows, Given(site.workspace, site.sys.id, MemoOf(StateOf(w, e).log)));
  }

  /** They are the first ones sent exactly when no lost message lies before a received one. */
  lemma ReceivedFirstIff(f: Fleet, hs: seq<Happening>, e: string)
    requires Lawful(f, hs) && SoleActor(f, e)
    ensures ReceivedPlaces(f, WorldAfter(f, hs), e) <= SentPlaces(f, WorldAfter(f, hs), e) <==> !SkippedIn(f, WorldAfter(f, hs), e)
  {
    var w, site := WorldAfter(f, hs), f.sites[e];
    var memo := MemoOf(StateOf(w, e).log);
    AlwaysInArrivalOrder(f, hs, e);
    AlwaysFifo(f, hs, site.workspace);
    FirstOnesIff(w.rows, Given(site.workspace, site.sys.id, memo), Valued(site.workspace));
    ClosedIff(w.rows, site.workspace, site.sys.id, memo);
  }

  ghost predicate DifferentValues(rows: seq<Row>, ws: string) {
    forall i, j :: 0 <= i < j < |rows| && Valued(ws)(rows[i]) && Valued(ws)(rows[j]) ==> rows[i].data != rows[j].data
  }

  /** Among different values, a prefix of the values is a prefix of the places. */
  lemma SameValueSamePlace(rows: seq<Row>, ws: string, sel: Row -> bool)
    requires DifferentValues(rows, ws) && forall r :: sel(r) ==> Valued(ws)(r)
    requires Pick(rows, sel) <= Pick(rows, Valued(ws))
    ensures Numbers(rows, sel) <= Numbers(rows, Valued(ws))
  {
    var a, b := Numbers(rows, sel), Numbers(rows, Valued(ws));
    NumbersFacts(rows, sel);
    NumbersFacts(rows, Valued(ws));
    forall k | 0 <= k < |a| ensures a[k] == b[k] {
      assert Pick(rows, sel)[k] == Pick(rows, Valued(ws))[k];
    }
  }

  lemma PlacesGiveValues(rows: seq<Row>, sel: Row -> bool, all: Row -> bool)
    requires Numbers(rows, sel) <= Numbers(rows, all)
    ensures Pick(rows, sel) <= Pick(rows, all)
  {
    NumbersFacts(rows, sel);
    NumbersFacts(rows, all);
  }

  /** As values: the recorded ones are a prefix of those sent if no lost message lies before a
      received one, and, when no value was sent twice, only then. */
  lemma ValuesPrefixIff(f: Fleet, hs: seq<Happening>, e: string)
    requires Lawful(f, hs) && SoleActor(f, e)
    ensures var w, ws := WorldAfter(f, hs), f.sites[e].workspace;
            var prefix := Answers(StateOf(w, e).log) <= NonNull(Sent(w.rows, ws));
            && (!SkippedIn(f, w, e) ==> prefix)
            && (DifferentValues(w.rows, ws) ==> (prefix <==> !SkippedIn(f, w, e)))
  {
    var w, site := WorldAfter(f, hs), f.sites[e];
    var sel := Given(site.workspace, site.sys.id, MemoOf(StateOf(w, e).log));
    AlwaysInArrivalOrder(f, hs, e);
    ValuesAreSent(w.rows, site.workspace);
    ReceivedFirstIff(f, hs, e);
    if !SkippedIn(f, w, e) { PlacesGiveValues(w.rows, sel, Valued(site.workspace)); }
    if DifferentValues(w.rows, site.workspace) && Pick(w.rows, sel) <= Pick(w.rows, Valued(site.workspace)) {
      SameValueSamePlace(w.rows, site.workspace, sel);
    }
  }
}
