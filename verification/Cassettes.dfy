/** The HTTP tape of an evaluation: built from a golden run's log, served by request key. */
module Cassettes {
  import opened Types
  import opened CanonKeys

  /** The request part of an http call's arguments. */
  datatype HttpArgs = HttpArgs(url: string, body: string)

  /** How http arguments are read and URLs parsed, and how requests are matched. */
  datatype Matching = Matching(decode: string -> Option<HttpArgs>, parse: string -> Parsed, opts: CanonOpts) {
    function KeyOf(operation: string, url: string, body: string): Key {
      CanonKey(opts, operation, parse(url), body)
    }
  }

  datatype Entry = Entry(key: Key, operation: string, url: string, result: string, err: string)

  predicate IsExchange(m: Matching, ev: Event) {
    ev.Result? && ev.rpc.capability == "http" && m.decode(ev.rpc.args).Some?
  }

  function EntryOf(m: Matching, ev: Event): Entry
    requires IsExchange(m, ev)
  {
    var a := m.decode(ev.rpc.args).value;
    Entry(m.KeyOf(ev.rpc.operation, a.url, a.body), ev.rpc.operation, a.url, ev.rpc.result, ev.rpc.err)
  }

  /** The recorded exchanges of a log, in order. */
  function Exchanges(m: Matching, events: seq<Event>): seq<Entry> {
    if events == [] then [] else
      var ev := events[|events| - 1];
      Exchanges(m, events[..|events| - 1]) + if IsExchange(m, ev) then [EntryOf(m, ev)] else []
  }

  /** Where a key was recorded, in record order. */
  function Places(entries: seq<Entry>, key: Key): seq<nat> {
    if entries == [] then [] else
      var n := |entries| - 1;
      Places(entries[..n], key) + if entries[n].key == key then [n] else []
  }

  lemma {:induction false} PlacesSound(entries: seq<Entry>, key: Key, i: nat)
    requires i < |Places(entries, key)|
    ensures Places(entries, key)[i] < |entries| && entries[Places(entries, key)[i]].key == key
  {
    var n := |entries| - 1;
    if i < |Places(entries[..n], key)| { PlacesSound(entries[..n], key, i); }
  }

  lemma {:induction false} PlacesComplete(entries: seq<Entry>, i: nat)
    requires i < |entries|
    ensures i in Places(entries, entries[i].key)
  {
    var n := |entries| - 1;
    if i < n { PlacesComplete(entries[..n], i); }
  }

  /** How often each key has been served so far, up to its number of recordings. */
  type Cursor = map<Key, nat>

  function ServedOf(c: Cursor, key: Key): nat {
    if key in c then c[key] else 0
  }

  /** One lookup: the entry's place, and the cursor afterwards. */
  function LookupModel(entries: seq<Entry>, c: Cursor, key: Key): (Option<nat>, Cursor) {
    var ps := Places(entries, key);
    if ps == [] then (None, c)
    else if ServedOf(c, key) >= |ps| then (Some(ps[|ps| - 1]), c)
    else (Some(ps[ServedOf(c, key)]), c[key := ServedOf(c, key) + 1])
  }

  function PlacesIn(at: map<Key, seq<nat>>, key: Key): seq<nat> {
    if key in at then at[key] else []
  }

  lemma LookupInBounds(entries: seq<Entry>, c: Cursor, key: Key)
    ensures LookupModel(entries, c, key).0.Some? ==> LookupModel(entries, c, key).0.value < |entries|
  {
    var ps := Places(entries, key);
    if ps != [] { PlacesSound(entries, key, if ServedOf(c, key) >= |ps| then |ps| - 1 else ServedOf(c, key)); }
  }

  class Cassette {
    const matching: Matching
    const entries: seq<Entry>
    var index: Option<map<Key, seq<nat>>>
    var cursor: Cursor

    /** Extracts the request/response pairs of a golden run's log. */
    constructor (events: seq<Event>, matching: Matching)
      ensures Valid() && this.matching == matching && entries == Exchanges(matching, events) && Served() == map[]
    {
      var es: seq<Entry> := [];
      for i := 0 to |events|
        invariant es == Exchanges(matching, events[..i])
      {
        assert events[..i + 1][..i] == events[..i];
        var ev := events[i];
        if ev.Result? && ev.rpc.capability == "http" {
          var a := matching.decode(ev.rpc.args);
          if a.Some? {
            es := es + [Entry(matching.KeyOf(ev.rpc.operation, a.value.url, a.value.body), ev.rpc.operation, a.value.url, ev.rpc.result, ev.rpc.err)];
          }
        }
      }
      assert events[..|events|] == events;
      this.matching, entries, index, cursor := matching, es, None, map[];
    }

    ghost predicate Valid()
      reads this
    {
      index.Some? ==> forall k :: PlacesIn(index.value, k) == Places(entries, k)
    }

    /** The cursor, empty until the index is built. */
    ghost function Served(): Cursor
      reads this
    {
      if index.Some? then cursor else map[]
    }

    method BuildIndex()
      requires Valid()
      modifies this
      ensures Valid() && index.Some? && cursor == old(Served()) && (old(index).Some? ==> index == old(index))
    {
      if index.Some? { return; }
      var at: map<Key, seq<nat>> := map[];
      for i := 0 to |entries|
        invariant forall k :: PlacesIn(at, k) == Places(entries[..i], k)
      {
        assert entries[..i + 1][..i] == entries[..i];
        ghost var was := at;
        var k := entries[i].key;
        at := at[k := PlacesIn(at, k) + [i]];
        forall j ensures PlacesIn(at, j) == Places(entries[..i + 1], j) {
          assert PlacesIn(was, j) == Places(entries[..i], j);
        }
      }
      assert entries[..|entries|] == entries;
      index, cursor := Some(at), map[];
    }

    /** The recorded exchange for a request, if there is one; repeated requests get successive
        recordings and then stay on the last. */
    method Lookup(operation: string, url: string, body: string) returns (e: Option<Entry>)
      requires Valid()
      modifies this
      ensures Valid()
      ensures var m := LookupModel(entries, old(Served()), matching.KeyOf(operation, url, body));
              Served() == m.1 && (m.0.None? ==> e == None) && (m.0.Some? ==> m.0.value < |entries| && e == Some(entries[m.0.value]))
    {
      BuildIndex();
      var key := matching.KeyOf(operation, url, body);
      var idxs := PlacesIn(index.value, key);
      if |idxs| == 0 { return None; }
      var pos := ServedOf(cursor, key);
      if pos >= |idxs| {
        pos := |idxs| - 1;
      } else {
        cursor := cursor[key := pos + 1];
      }
      PlacesSound(entries, key, pos);
      e := Some(entries[idxs[pos]]);
    }
  }

  // ---- Whole sequences of lookups

  function Count(keys: seq<Key>, key: Key): nat {
    if keys == [] then 0 else Count(keys[..|keys| - 1], key) + if keys[|keys| - 1] == key then 1 else 0
  }

  function CursorAfter(entries: seq<Entry>, keys: seq<Key>): Cursor {
    if keys == [] then map[] else LookupModel(entries, CursorAfter(entries, keys[..|keys| - 1]), keys[|keys| - 1]).1
  }

  function Min(a: nat, b: nat): nat {
    if a < b then a else b
  }

  /** Every key has been served as often as it was asked for, up to its recordings. */
  lemma {:induction false} CursorCounts(entries: seq<Entry>, keys: seq<Key>, key: Key)
    ensures ServedOf(CursorAfter(entries, keys), key) == Min(Count(keys, key), |Places(entries, key)|)
  {
    if keys != [] { CursorCounts(entries, keys[..|keys| - 1], key); }
  }

  ghost predicate Recorded(entries: seq<Entry>, key: Key) {
    exists i :: 0 <= i < |entries| && entries[i].key == key
  }

  lemma PlacesIffRecorded(entries: seq<Entry>, key: Key)
    ensures Places(entries, key) != [] <==> Recorded(entries, key)
  {
    if Recorded(entries, key) {
      var i :| 0 <= i < |entries| && entries[i].key == key;
      PlacesComplete(entries, i);
    }
    if Places(entries, key) != [] { PlacesSound(entries, key, 0); }
  }

  /** The k-th recording, staying on the last one; none if there is none. */
  function Recording(ps: seq<nat>, k: nat): Option<nat>
    requires k >= 1
  {
    if ps == [] then None else Some(ps[Min(k, |ps|) - 1])
  }

  lemma LookupAt(entries: seq<Entry>, c: Cursor, key: Key, earlier: nat)
    requires ServedOf(c, key) == Min(earlier, |Places(entries, key)|)
    ensures LookupModel(entries, c, key).0 == Recording(Places(entries, key), earlier + 1)
  {
  }

  /** A lookup hits exactly when its key was recorded, whatever was looked up before. */
  lemma HitsIffRecorded(entries: seq<Entry>, c: Cursor, key: Key)
    ensures LookupModel(entries, c, key).0.Some? <==> Recorded(entries, key)
  {
    PlacesIffRecorded(entries, key);
  }

  /** After any lookups, the k-th lookup of a key recorded n times returns its min(k, n)-th
      recording. */
  lemma LookupReturns(entries: seq<Entry>, earlier: seq<Key>, key: Key)
    ensures LookupModel(entries, CursorAfter(entries, earlier), key).0 == Recording(Places(entries, key), Count(earlier, key) + 1)
  {
    CursorCounts(entries, earlier, key);
    LookupAt(entries, CursorAfter(entries, earlier), key, Count(earlier, key));
  }

  function KeysOf(entries: seq<Entry>): (ks: seq<Key>)
    ensures |ks| == |entries| && forall i :: 0 <= i < |ks| ==> ks[i] == entries[i].key
  {
    seq(|entries|, i requires 0 <= i < |entries| => entries[i].key)
  }

  /** The i-th entry is recording number Count(keys before i) of its key. */
  lemma {:induction false} PlaceOf(entries: seq<Entry>, i: nat)
    requires i < |entries|
    ensures var ps, k := Places(entries, entries[i].key), Count(KeysOf(entries)[..i], entries[i].key); k < |ps| && ps[k] == i
    decreases |entries|
  {
    var n := |entries| - 1;
    var key := entries[i].key;
    if i < n {
      PlaceOf(entries[..n], i);
      assert KeysOf(entries[..n])[..i] == KeysOf(entries)[..i];
    } else {
      CountIsPlaces(entries[..n], key);
      assert KeysOf(entries[..n]) == KeysOf(entries)[..n];
    }
  }

  lemma {:induction false} CountIsPlaces(entries: seq<Entry>, key: Key)
    ensures Count(KeysOf(entries), key) == |Places(entries, key)|
  {
    if entries != [] {
      var n := |entries| - 1;
      CountIsPlaces(entries[..n], key);
      assert KeysOf(entries)[..n] == KeysOf(entries[..n]);
    }
  }

  lemma LookupGives(es: seq<Entry>, earlier: seq<Key>, key: Key, i: nat)
    requires Count(earlier, key) < |Places(es, key)| && Places(es, key)[Count(earlier, key)] == i
    ensures LookupModel(es, CursorAfter(es, earlier), key).0 == Some(i)
  {
    LookupReturns(es, earlier, key);
    RecordingAt(Places(es, key), Count(earlier, key), i);
  }

  lemma RecordingAt(ps: seq<nat>, k: nat, i: nat)
    requires k < |ps| && ps[k] == i
    ensures Recording(ps, k + 1) == Some(i)
  {
  }

  /** Replaying the recorded requests in recorded order returns exactly the i-th exchange at the
      i-th lookup. */
  lemma RecordedOrderReplays(m: Matching, events: seq<Event>, i: nat)
    requires i < |Exchanges(m, events)|
    ensures var es := Exchanges(m, events); LookupModel(es, CursorAfter(es, KeysOf(es)[..i]), es[i].key).0 == Some(i)
  {
    var es := Exchanges(m, events);
    PlaceOf(es, i);
    LookupGives(es, KeysOf(es)[..i], es[i].key, i);
  }

  ghost predicate RecordedRequest(m: Matching, ev: Event, operation: string, url: Url, body: string) {
    && IsExchange(m, ev)
    && var a := m.decode(ev.rpc.args).value;
       m.parse(a.url).Parsed? && SameRequest(m.opts, operation, url, body, ev.rpc.operation, m.parse(a.url).url, a.body)
  }

  lemma {:induction false} EntriesAreExchanges(m: Matching, events: seq<Event>, key: Key)
    ensures Recorded(Exchanges(m, events), key) <==> exists i :: 0 <= i < |events| && IsExchange(m, events[i]) && EntryOf(m, events[i]).key == key
  {
    var es := Exchanges(m, events);
    if events != [] {
      var n := |events| - 1;
      EntriesAreExchanges(m, events[..n], key);
      var shorter := Exchanges(m, events[..n]);
      if Recorded(shorter, key) {
        var i :| 0 <= i < |shorter| && shorter[i].key == key;
        assert es[i].key == key;
        var j :| 0 <= j < n && IsExchange(m, events[..n][j]) && EntryOf(m, events[..n][j]).key == key;
        assert events[j] == events[..n][j];
      }
      if IsExchange(m, events[n]) { assert es[|es| - 1] == EntryOf(m, events[n]); }
      if i :| 0 <= i < n && IsExchange(m, events[i]) && EntryOf(m, events[i]).key == key {
        assert events[..n][i] == events[i];
      }
      if Recorded(es, key) {
        var i :| 0 <= i < |es| && es[i].key == key;
        if i < |shorter| { assert shorter[i] == es[i]; }
      }
    }
  }

  /** From log to tape: whatever was looked up before, a request with a parseable URL is served
      exactly when the log holds an exchange that agrees with it in everything but what
      canonicalization drops. */
  lemma ServedIffSameRequest(m: Matching, events: seq<Event>, c: Cursor, operation: string, url: string, body: string)
    requires m.parse(url).Parsed?
    ensures LookupModel(Exchanges(m, events), c, m.KeyOf(operation, url, body)).0.Some? <==>
            exists i :: 0 <= i < |events| && RecordedRequest(m, events[i], operation, m.parse(url).url, body)
  {
    var key, u := m.KeyOf(operation, url, body), m.parse(url).url;
    HitsIffRecorded(Exchanges(m, events), c, key);
    EntriesAreExchanges(m, events, key);
    forall i | 0 <= i < |events| && IsExchange(m, events[i])
      ensures EntryOf(m, events[i]).key == key <==> RecordedRequest(m, events[i], operation, u, body)
    {
      var a := m.decode(events[i].rpc.args).value;
      if m.parse(a.url).Parsed? {
        KeysEqualIff(m.opts, operation, u, body, events[i].rpc.operation, m.parse(a.url).url, a.body);
      }
    }
  }
}
