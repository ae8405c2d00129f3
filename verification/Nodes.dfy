/** The tree of script positions inside one attempt: addressing, replacing a node,
    and what the reference run makes of a half-finished tree. */
module Nodes {
  import opened Types
  import opened CallKeys
  import opened Scripts

  // ---- Reference runs only gain from a larger memo

  lemma {:induction false} RefMonotone(p: Prog, path: Path, ctr: nat, c: Ctx, d: Ctx)
    requires c.granted == d.granted && Sub(c.memo, d.memo)
    requires RefRun(p, path, ctr, c).Some?
    ensures RefRun(p, path, ctr, d) == RefRun(p, path, ctr, c)
    decreases p
  {
    match p
    case Ret(_) =>
    case Call(inv, rest) =>
      var r := if inv.capability !in c.granted then NotGranted(inv) else Replayed(inv, c.memo[Dotted(path + [ctr])]);
      if r in rest { RefMonotone(rest[r], path, ctr + 1, c, d); }
    case Par(branches, joined) =>
      BranchesMonotone(p, path, ctr, c, d);
      var j := Join(Values(Branches(p, path, ctr, c)));
      if j in joined { RefMonotone(joined[j], path, ctr + 1, c, d); }
  }

  /** The ends of all branches of a fork. */
  ghost function Branches(p: Prog, path: Path, ctr: nat, c: Ctx): seq<Option<Finish>>
    requires p.Par?
  {
    seq(|p.branches|, i requires 0 <= i < |p.branches| => RefRun(p.branches[i], path + [ctr, i], 0, c))
  }

  lemma {:induction false} BranchesMonotone(p: Prog, path: Path, ctr: nat, c: Ctx, d: Ctx)
    requires p.Par? && c.granted == d.granted && Sub(c.memo, d.memo)
    requires AllSome(Branches(p, path, ctr, c))
    ensures Branches(p, path, ctr, d) == Branches(p, path, ctr, c)
    decreases p, 0
  {
    forall i | 0 <= i < |p.branches|
      ensures RefRun(p.branches[i], path + [ctr, i], 0, d) == RefRun(p.branches[i], path + [ctr, i], 0, c)
    {
      assert Branches(p, path, ctr, c)[i].Some?;
      RefMonotone(p.branches[i], path + [ctr, i], 0, c, d);
    }
  }

  lemma {:induction false} InvMonotone(p: Prog, path: Path, ctr: nat, c: Ctx, d: Ctx, q: Path)
    requires c.granted == d.granted && Sub(c.memo, d.memo)
    requires InvAt(p, path, ctr, c, q).Some?
    ensures InvAt(p, path, ctr, d, q) == InvAt(p, path, ctr, c, q)
    decreases p
  {
    match p
    case Call(inv, rest) =>
      if q[0] > ctr {
        var r := if inv.capability !in c.granted then NotGranted(inv) else Replayed(inv, c.memo[Dotted(path + [ctr])]);
        InvMonotone(rest[r], path, ctr + 1, c, d, q);
      }
    case Par(branches, joined) =>
      if q[0] == ctr {
        InvMonotone(branches[q[1]], path + [ctr, q[1]], 0, c, d, q[2..]);
      } else {
        BranchesMonotone(p, path, ctr, c, d);
        InvMonotone(joined[Join(Values(Branches(p, path, ctr, c)))], path, ctr + 1, c, d, q);
      }
  }

  /** Going on after an answer, whether or not the script has a continuation for it. */
  lemma RestIsAfter(p: Prog, r: Response, path: Path, ctr: nat, c: Ctx)
    requires p.Call?
    ensures RefRest(p, r, path, ctr, c) == RefRun(After(p.rest, r), path, ctr + 1, c)
  {
  }

  // ---- Addresses

  ghost predicate Under(n: Node, a: Path) {
    n.Fan? && |a| >= 2 && a[0] == n.idx && a[1] < |n.kids|
  }

  ghost function NodeAt(n: Node, a: Path): Option<Node>
    decreases n
  {
    if a == [] then Some(n) else if Under(n, a) then NodeAt(n.kids[a[1]], a[2..]) else None
  }

  ghost function Put(n: Node, a: Path, x: Node): Node
    decreases n
  {
    if a == [] then x
    else if Under(n, a) then n.(kids := n.kids[a[1] := Put(n.kids[a[1]], a[2..], x)])
    else n
  }

  /** The call in flight under key path `q`. */
  ghost function FlightAt(n: Node, q: Path): (r: Option<Node>)
    ensures r.Some? ==> r.value.Flight? && q != []
    decreases n
  {
    if n.Flight? then (if q == [n.idx] then Some(n) else None)
    else if Under(n, q) then FlightAt(n.kids[q[1]], q[2..])
    else None
  }

  ghost predicate Prefix(a: Path, q: Path) {
    |a| <= |q| && q[..|a|] == a
  }

  lemma {:induction false} FlightInPut(n: Node, a: Path, x: Node, q: Path)
    requires NodeAt(n, a).Some?
    ensures Prefix(a, q) ==> FlightAt(n, q) == FlightAt(NodeAt(n, a).value, q[|a|..])
    ensures Prefix(a, q) ==> FlightAt(Put(n, a, x), q) == FlightAt(x, q[|a|..])
    ensures !Prefix(a, q) ==> FlightAt(Put(n, a, x), q) == FlightAt(n, q)
    decreases n
  {
    assert a != [] && Prefix(a, q) ==> q[..|a|][0] == q[0] && q[..|a|][1] == q[1];
    if a == [] {
      assert q[0..] == q;
    } else if Under(n, q) && q[1] == a[1] {
      FlightInPut(n.kids[a[1]], a[2..], x, q[2..]);
      assert Prefix(a, q) <==> Prefix(a[2..], q[2..]) by {
        if Prefix(a, q) { assert q[2..][..|a| - 2] == q[..|a|][2..]; }
        if Prefix(a[2..], q[2..]) { assert q[..|a|] == q[..2] + q[2..][..|a| - 2]; }
      }
      if Prefix(a, q) { assert q[2..][|a| - 2..] == q[|a|..]; }
    }
  }

  // ---- The reference run of a tree

  ghost function RefNode(n: Node, path: Path, c: Ctx): Option<Finish>
    decreases n
  {
    match n
    case At(p, ctr) => RefRun(p, path, ctr, c)
    case Flight(inv, rest, idx, stage) =>
      if stage.Committed? then RefRun(After(rest, stage.resp), path, idx + 1, c) else RefRun(Call(inv, rest), path, idx, c)
    case Fan(kids, joined, idx) =>
      var fs := seq(|kids|, i requires 0 <= i < |kids| => RefNode(kids[i], path + [idx, i], c));
      if AllSome(fs) then RefRun(After(joined, Join(Values(fs))), path, idx + 1, c) else None
  }

  ghost function Kids(n: Node, path: Path, c: Ctx): seq<Option<Finish>>
    requires n.Fan?
  {
    seq(|n.kids|, i requires 0 <= i < |n.kids| => RefNode(n.kids[i], path + [n.idx, i], c))
  }

  ghost function InvNode(n: Node, path: Path, c: Ctx, q: Path): Option<Invocation>
    decreases n
  {
    if q == [] then None else
    match n
    case At(p, ctr) => InvAt(p, path, ctr, c, q)
    case Flight(inv, rest, idx, stage) =>
      if stage.Committed? then
        (if q == [idx] then Some(inv) else InvAt(After(rest, stage.resp), path, idx + 1, c, q))
      else InvAt(Call(inv, rest), path, idx, c, q)
    case Fan(kids, joined, idx) =>
      if q[0] < idx then None
      else if q[0] == idx then
        (if |q| > 2 && q[1] < |kids| then InvNode(kids[q[1]], path + [idx, q[1]], c, q[2..]) else None)
      else
        var fs := seq(|kids|, i requires 0 <= i < |kids| => RefNode(kids[i], path + [idx, i], c));
        if AllSome(fs) then InvAt(After(joined, Join(Values(fs))), path, idx + 1, c, q) else None
  }

  /** `x` continues `was`: same end, and every call still to come was already due. */
  ghost predicate Continues(x: Node, was: Node, path: Path, c: Ctx) {
    && RefNode(x, path, c) == RefNode(was, path, c)
    && forall q :: InvNode(x, path, c, q).Some? ==> InvNode(x, path, c, q) == InvNode(was, path, c, q)
  }

  lemma {:induction false} PutContinues(n: Node, a: Path, x: Node, path: Path, c: Ctx)
    requires NodeAt(n, a).Some?
    requires Continues(x, NodeAt(n, a).value, path + a, c)
    ensures Continues(Put(n, a, x), n, path, c)
    decreases n
  {
    if a == [] {
      assert path + a == path;
    } else {
      var under := path + [n.idx, a[1]];
      assert under + a[2..] == path + a;
      PutContinues(n.kids[a[1]], a[2..], x, under, c);
      KidContinues(n, a[1], Put(n.kids[a[1]], a[2..], x), path, c);
    }
  }

  /** One branch replaced by a continuation of it. */
  lemma KidContinues(n: Node, i: nat, x: Node, path: Path, c: Ctx)
    requires n.Fan? && i < |n.kids| && Continues(x, n.kids[i], path + [n.idx, i], c)
    ensures Continues(n.(kids := n.kids[i := x]), n, path, c)
  {
    var n' := n.(kids := n.kids[i := x]);
    assert forall k :: 0 <= k < |n.kids| ==> n'.kids[k] == if k == i then x else n.kids[k];
    KidsEqual(n, n', path, c);
    SameKidsSameEnd(n, n', path, c);
    forall q | InvNode(n', path, c, q).Some? ensures InvNode(n', path, c, q) == InvNode(n, path, c, q) {
      KidInv(n, i, x, path, c, q);
    }
  }

  lemma KidAt(n: Node, path: Path, c: Ctx, k: nat)
    requires n.Fan? && k < |n.kids|
    ensures |Kids(n, path, c)| == |n.kids| && Kids(n, path, c)[k] == RefNode(n.kids[k], path + [n.idx, k], c)
  {
  }

  lemma KidsEqual(n: Node, n': Node, path: Path, c: Ctx)
    requires n.Fan? && n'.Fan? && n.idx == n'.idx && |n.kids| == |n'.kids|
    requires forall k :: 0 <= k < |n.kids| ==> RefNode(n'.kids[k], path + [n.idx, k], c) == RefNode(n.kids[k], path + [n.idx, k], c)
    ensures Kids(n', path, c) == Kids(n, path, c)
  {
    var was, now := Kids(n, path, c), Kids(n', path, c);
    assert |was| == |now|;
    forall k | 0 <= k < |was| ensures was[k] == now[k] {
      KidAt(n, path, c, k);
      KidAt(n', path, c, k);
    }
  }

  lemma SameKidsSameEnd(n: Node, n': Node, path: Path, c: Ctx)
    requires n.Fan? && n'.Fan? && n.idx == n'.idx && n.joined == n'.joined && Kids(n', path, c) == Kids(n, path, c)
    ensures RefNode(n', path, c) == RefNode(n, path, c)
  {
    RefFan(n, path, c);
    RefFan(n', path, c);
  }

  /** The reference run of a fork, from the ends of its branches. */
  lemma RefFan(n: Node, path: Path, c: Ctx)
    requires n.Fan?
    ensures RefNode(n, path, c) ==
            if AllSome(Kids(n, path, c)) then RefRun(After(n.joined, Join(Values(Kids(n, path, c)))), path, n.idx + 1, c) else None
  {
  }

  lemma KidInv(n: Node, i: nat, x: Node, path: Path, c: Ctx, q: Path)
    requires n.Fan? && i < |n.kids| && Continues(x, n.kids[i], path + [n.idx, i], c)
    requires var n' := n.(kids := n.kids[i := x]); Kids(n', path, c) == Kids(n, path, c) && InvNode(n', path, c, q).Some?
    ensures InvNode(n.(kids := n.kids[i := x]), path, c, q) == InvNode(n, path, c, q)
  {
    if q[0] == n.idx && q[1] == i {
      assert InvNode(x, path + [n.idx, i], c, q[2..]).Some?;
    }
  }

  /** A call in flight is a call the reference run makes there. */
  lemma {:induction false} FlightIsDue(n: Node, path: Path, c: Ctx, q: Path)
    requires FlightAt(n, q).Some?
    ensures InvNode(n, path, c, q) == Some(FlightAt(n, q).value.inv)
    decreases n
  {
    if n.Fan? { FlightIsDue(n.kids[q[1]], path + [n.idx, q[1]], c, q[2..]); }
  }

  /** In a tree whose reference run ends, every node's does. */
  lemma {:induction false} EndedAnswersNext(n: Node, path: Path, c: Ctx, a: Path)
    requires RefNode(n, path, c).Some?
    requires NodeAt(n, a).Some?
    ensures RefNode(NodeAt(n, a).value, path + a, c).Some?
    decreases n
  {
    if a == [] {
      assert path + a == path;
    } else {
      var under := path + [n.idx, a[1]];
      assert Kids(n, path, c)[a[1]].Some?;
      EndedAnswersNext(n.kids[a[1]], under, c, a[2..]);
      assert under + a[2..] == path + a;
    }
  }
}
