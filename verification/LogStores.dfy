/** The lease table and the two log back ends, as the objects that hold them. */
module LogStores {
  import opened Types
  import opened Logs

  /** In-memory leases: every Acquire mints a larger token and takes over. */
  class MemLeaser {
    var current: map<string, nat>
    var next: nat

    constructor ()
      ensures current == map[] && next == 0
    {
      current, next := map[], 0;
    }

    ghost predicate Valid()
      reads this
    {
      forall e :: e in current ==> 1 <= current[e] <= next
    }

    function Current(exec: string): (r: Option<nat>)
      reads this
    {
      if exec in current then Some(current[exec]) else None
    }

    method Acquire(exec: string) returns (token: nat)
      requires Valid()
      modifies this
      ensures Valid() && token == next == old(next) + 1
      ensures current == old(current)[exec := token]
      ensures forall e :: e in old(current) ==> old(current)[e] < token
    {
      next := next + 1;
      current := current[exec := next];
      token := next;
    }

    /** False: ownership was taken over, or given up. */
    method Renew(exec: string, token: nat) returns (ok: bool)
      requires Valid() && token >= 1
      ensures ok <==> Current(exec) == Some(token)
    {
      var held := if exec in current then current[exec] else 0;
      ok := held == token;
    }

    method Release(exec: string, token: nat)
      requires Valid() && token >= 1
      modifies this
      ensures Valid() && next == old(next)
      ensures current == if old(Current(exec)) == Some(token) then old(current) - {exec} else old(current)
    {
      var held := if exec in current then current[exec] else 0;
      if held == token { current := current - {exec}; }
    }
  }

  function EventsOf(events: map<string, seq<Event>>, exec: string): seq<Event> {
    if exec in events then events[exec] else []
  }

  /** The in-memory log: compare-and-set on the next position. */
  class MemLog {
    var events: map<string, seq<Event>>
    const fences: MemLeaser?

    constructor (fences: MemLeaser?)
      ensures events == map[] && this.fences == fences
    {
      events := map[];
      this.fences := fences;
    }

    function Fence(exec: string): Option<nat>
      reads this, fences
    {
      if fences == null then None else fences.Current(exec)
    }

    method Append(exec: string, expected: nat, token: nat, ev: Event) returns (r: Appended)
      modifies this`events
      ensures (r, EventsOf(events, exec)) == MemAppend(old(EventsOf(events, exec)), old(Fence(exec)), expected, token, ev)
      ensures forall e :: e != exec ==> EventsOf(events, e) == old(EventsOf(events, e))
      ensures r == Fenced <==> fences != null && fences.Current(exec) != None && fences.Current(exec) != Some(token)
      ensures !r.Wrote? ==> events == old(events)
    {
      if fences != null {
        var cur := fences.Current(exec);
        if cur.Some? && token != cur.value { return Fenced; }
      }
      var log := EventsOf(events, exec);
      if expected != |log| { return Conflict; }
      events := events[exec := log + [Renumber(ev, |log|)]];
      r := Wrote(|log|);
    }

    method Read(exec: string, from: nat) returns (out: seq<Event>)
      ensures out == MemRead(EventsOf(events, exec), from)
    {
      var all := EventsOf(events, exec);
      if from >= |all| { return []; }
      out := all[from..];
    }
  }

  function RowsOf(rows: map<string, Rows>, exec: string): Rows {
    if exec in rows then rows[exec] else map[]
  }

  function TopOf(top: map<string, nat>, exec: string): nat {
    if exec in top then top[exec] else 0
  }

  /** A bound above all row numbers of a log's table is no less than the log's length. */
  lemma BoundedTable(table: Rows, log: seq<Event>, end: nat)
    requires table == TableOf(log) && forall n: nat :: n in table ==> n < end
    ensures |log| <= end
  {
    if |log| > 0 {
      var last: nat := |log| - 1;
      assert last in table;
    }
  }

  /** The SQL log: a primary key on (execution, sequence number) and nothing else.
      `top` bounds the sequence numbers in use, as the index does. */
  class SqlLog {
    var rows: map<string, Rows>
    var top: map<string, nat>
    const fences: MemLeaser?

    constructor (fences: MemLeaser?)
      ensures rows == map[] && top == map[] && this.fences == fences
      ensures Valid()
    {
      rows, top := map[], map[];
      this.fences := fences;
    }

    ghost predicate Valid()
      reads this
    {
      forall e, n: nat :: n in RowsOf(rows, e) ==> n < TopOf(top, e)
    }

    function Fence(exec: string): Option<nat>
      reads this, fences
    {
      if fences == null then None else fences.Current(exec)
    }

    method Append(exec: string, expected: nat, token: nat, ev: Event) returns (r: Appended)
      requires Valid()
      modifies this
      ensures Valid()
      ensures (r, RowsOf(rows, exec)) == SqlAppend(old(RowsOf(rows, exec)), old(Fence(exec)), expected, token, ev)
      ensures forall e :: e != exec ==> RowsOf(rows, e) == old(RowsOf(rows, e)) && TopOf(top, e) == old(TopOf(top, e))
      ensures r == Fenced <==> fences != null && fences.Current(exec) != None && fences.Current(exec) != Some(token)
      ensures !r.Wrote? ==> rows == old(rows) && top == old(top)
    {
      if fences != null {
        var cur := fences.Current(exec);
        if cur.Some? && token != cur.value { return Fenced; }
      }
      var table := RowsOf(rows, exec);
      if expected in table { return Conflict; }
      rows := rows[exec := table[expected := Renumber(ev, expected)]];
      if TopOf(top, exec) <= expected { top := top[exec := expected + 1]; }
      r := Wrote(expected);
      forall e, n: nat | n in RowsOf(rows, e) ensures n < TopOf(top, e) {
        if e == exec {
          assert n == expected || n in old(RowsOf(rows, exec));
        } else {
          assert n in old(RowsOf(rows, e));
        }
      }
    }

    /** Reads the rows in sequence order; on a gap-free table this is the in-memory read. */
    method Read(exec: string, from: nat) returns (out: seq<Event>)
      requires Valid()
      ensures out == RowsFrom(RowsOf(rows, exec), from, TopOf(top, exec))
      ensures forall log :: RowsOf(rows, exec) == TableOf(log) ==> out == MemRead(log, from)
    {
      var table, end := RowsOf(rows, exec), TopOf(top, exec);
      out := [];
      var n := from;
      while n < end
        invariant from <= n && (if from <= end then n <= end else n == from)
        invariant out == RowsFrom(table, from, n)
      {
        if n in table { out := out + [table[n]]; }
        n := n + 1;
      }
      forall log | table == TableOf(log) ensures out == MemRead(log, from) {
        BoundedTable(table, log, end);
        SqlReadsAlike(log, from, end);
      }
    }
  }

  // ---- A stolen lease

  /** The lease of an execution is acquired twice: wherever the first holder now tries to append, and
      though its token is the smaller one, it is refused, and the log stays as it is. */
  method StolenLease(leaser: MemLeaser, log: MemLog, exec: string, expected: nat, ev: Event) returns (first: nat, second: nat, r: Appended)
    requires leaser.Valid() && log.fences == leaser
    modifies leaser, log
    ensures first < second && r == Fenced && log.events == old(log.events)
  {
    first := leaser.Acquire(exec);
    second := leaser.Acquire(exec);
    r := log.Append(exec, expected, first, ev);
  }

  method StolenSqlLease(leaser: MemLeaser, log: SqlLog, exec: string, expected: nat, ev: Event) returns (first: nat, second: nat, r: Appended)
    requires leaser.Valid() && log.Valid() && log.fences == leaser
    modifies leaser, log
    ensures first < second && r == Fenced && log.rows == old(log.rows)
  {
    first := leaser.Acquire(exec);
    second := leaser.Acquire(exec);
    r := log.Append(exec, expected, first, ev);
  }
}
