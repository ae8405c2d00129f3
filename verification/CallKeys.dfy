/** Deterministic call keys: index paths in the call tree and their dotted rendering. */
module CallKeys {

  type Path = seq<nat>

  function Digit(d: nat): char
    requires d < 10
  {
    (d + '0' as int) as char
  }

  /** Decimal rendering of an index. */
  function Itoa(n: nat): (s: string)
    ensures s != ""
  {
    if n < 10 then [Digit(n)] else Itoa(n / 10) + [Digit(n % 10)]
  }

  /** "0", "0.3", "0.3.1": the root's prefix is empty. */
  function Dotted(p: Path): (s: string)
    ensures p != [] ==> s != ""
  {
    if p == [] then "" else KeyUnder(Dotted(p[..|p| - 1]), p[|p| - 1])
  }

  function KeyUnder(prefix: string, idx: nat): (s: string)
    ensures s != ""
  {
    if prefix == "" then Itoa(idx) else prefix + "." + Itoa(idx)
  }

  lemma DottedSnoc(p: Path, i: nat)
    ensures Dotted(p + [i]) == KeyUnder(Dotted(p), i)
  {
    assert (p + [i])[..|p|] == p;
  }

  lemma {:induction false} ItoaHasNoDot(n: nat)
    ensures '.' !in Itoa(n)
  {
    if n >= 10 { ItoaHasNoDot(n / 10); }
  }

  lemma {:induction false} ItoaInjective(a: nat, b: nat)
    requires Itoa(a) == Itoa(b)
    ensures a == b
  {
    var s := Itoa(a);
    assert a >= 10 ==> Itoa(a / 10) != "" && |s| == |Itoa(a / 10)| + 1;
    assert b >= 10 ==> Itoa(b / 10) != "" && |s| == |Itoa(b / 10)| + 1;
    assert s[|s| - 1] == Digit(a % 10) == Digit(b % 10);
    if a >= 10 && b >= 10 {
      assert Itoa(a / 10) == s[..|s| - 1] == Itoa(b / 10);
      ItoaInjective(a / 10, b / 10);
    }
  }

  /** The last dot of a non-root key splits off its last index. */
  lemma LastDot(p: string, i: nat, q: string, j: nat)
    requires p + "." + Itoa(i) == q + "." + Itoa(j)
    ensures p == q && i == j
  {
    ItoaHasNoDot(i);
    ItoaHasNoDot(j);
    LastDotNoLater(p, Itoa(i), q, Itoa(j));
    LastDotNoLater(q, Itoa(j), p, Itoa(i));
    var s := p + "." + Itoa(i);
    assert p == s[..|p|] && q == s[..|p|];
    assert Itoa(i) == s[|p| + 1..] && Itoa(j) == s[|p| + 1..];
    ItoaInjective(i, j);
  }

  lemma LastDotNoLater(p: string, x: string, q: string, y: string)
    requires p + "." + x == q + "." + y
    ensures |p| < |q| ==> '.' in x
  {
    var s := p + "." + x;
    assert s[|q|] == '.' by { assert s == q + "." + y; }
    if |p| < |q| { assert s[|q|] == x[|q| - |p| - 1]; }
  }

  lemma KeyUnderInjective(p: string, i: nat, q: string, j: nat)
    requires KeyUnder(p, i) == KeyUnder(q, j)
    ensures p == q && i == j
  {
    ItoaHasNoDot(i);
    ItoaHasNoDot(j);
    assert p != "" ==> KeyUnder(p, i)[|p|] == '.';
    assert q != "" ==> KeyUnder(q, j)[|q|] == '.';
    if p == "" && q == "" {
      ItoaInjective(i, j);
    } else {
      LastDot(p, i, q, j);
    }
  }

  /** Different positions of the call tree have different keys. */
  lemma {:induction false} DottedInjective(p: Path, q: Path)
    requires Dotted(p) == Dotted(q)
    ensures p == q
  {
    if p == [] || q == [] {
    } else {
      var p', q' := p[..|p| - 1], q[..|q| - 1];
      KeyUnderInjective(Dotted(p'), p[|p| - 1], Dotted(q'), q[|q| - 1]);
      DottedInjective(p', q');
      assert p == p' + [p[|p| - 1]] && q == q' + [q[|q| - 1]];
    }
  }

  /** The path a key came from. */
  ghost function PathOf(s: string): Path
    requires exists p: Path :: Dotted(p) == s
    ensures Dotted(PathOf(s)) == s
  {
    var p: Path :| Dotted(p) == s; p
  }

  lemma PathOfDotted(p: Path)
    ensures PathOf(Dotted(p)) == p
  {
    DottedInjective(PathOf(Dotted(p)), p);
  }

  /** A mediator node: its place in the call tree and the next child index it hands out. */
  datatype TreeNode = TreeNode(path: Path, ctr: nat)

  /** All mediator nodes of a run, and the positions handed to calls so far. */
  datatype Tree = Tree(nodes: seq<TreeNode>, calls: seq<Path>)

  /** What a branch of the script can ask of node number `node`. */
  datatype TreeOp = CallOn(node: nat) | ChildOf(node: nat)

  const ROOT_ONLY := Tree([TreeNode([], 0)], [])

  function Apply(t: Tree, op: TreeOp): Tree {
    if op.node >= |t.nodes| then t else
      var n := t.nodes[op.node];
      var bumped := t.nodes[op.node := n.(ctr := n.ctr + 1)];
      var next := n.path + [n.ctr];
      if op.CallOn? then Tree(bumped, t.calls + [next]) else Tree(bumped + [TreeNode(next, 0)], t.calls)
  }

  function ApplyAll(t: Tree, ops: seq<TreeOp>): Tree {
    if ops == [] then t else Apply(ApplyAll(t, ops[..|ops| - 1]), ops[|ops| - 1])
  }

  /** `p` was handed out by its parent node. */
  ghost predicate HandedOut(t: Tree, p: Path) {
    p != [] && exists n :: 0 <= n < |t.nodes| && t.nodes[n].path == p[..|p| - 1] && p[|p| - 1] < t.nodes[n].ctr
  }

  ghost predicate TreeOk(t: Tree) {
    && (forall i, j :: 0 <= i < j < |t.nodes| ==> t.nodes[i].path != t.nodes[j].path)
    && (forall i, j :: 0 <= i < j < |t.calls| ==> t.calls[i] != t.calls[j])
    && (forall i, j :: 0 <= i < |t.calls| && 0 <= j < |t.nodes| ==> t.calls[i] != t.nodes[j].path)
    && (forall i :: 0 <= i < |t.calls| ==> HandedOut(t, t.calls[i]))
    && (forall j :: 0 <= j < |t.nodes| ==> t.nodes[j].path == [] || HandedOut(t, t.nodes[j].path))
  }

  lemma HandedOutStays(t: Tree, op: TreeOp, p: Path)
    requires HandedOut(t, p)
    ensures HandedOut(Apply(t, op), p)
  {
    var n :| 0 <= n < |t.nodes| && t.nodes[n].path == p[..|p| - 1] && p[|p| - 1] < t.nodes[n].ctr;
    assert Apply(t, op).nodes[n].path == p[..|p| - 1] && p[|p| - 1] < Apply(t, op).nodes[n].ctr;
  }

  /** The index a node hands out next was never handed out. */
  lemma NextIsNew(t: Tree, k: nat)
    requires TreeOk(t) && k < |t.nodes|
    ensures var next := t.nodes[k].path + [t.nodes[k].ctr];
            && !HandedOut(t, next)
            && (forall i :: 0 <= i < |t.calls| ==> t.calls[i] != next)
            && (forall j :: 0 <= j < |t.nodes| ==> t.nodes[j].path != next)
  {
    var next := t.nodes[k].path + [t.nodes[k].ctr];
    assert next[..|next| - 1] == t.nodes[k].path;
  }

  /** The nodes after a step: the old ones in place, and a new one for a fork. */
  lemma ApplyNodes(t: Tree, op: TreeOp)
    requires op.node < |t.nodes|
    ensures var t', next := Apply(t, op), t.nodes[op.node].path + [t.nodes[op.node].ctr];
            && |t'.nodes| == |t.nodes| + (if op.CallOn? then 0 else 1)
            && (forall j :: 0 <= j < |t'.nodes| ==> t'.nodes[j].path == if j < |t.nodes| then t.nodes[j].path else next)
            && t'.calls == t.calls + (if op.CallOn? then [next] else [])
            && HandedOut(t', next)
  {
    var n, t' := t.nodes[op.node], Apply(t, op);
    var next := n.path + [n.ctr];
    assert next[..|next| - 1] == n.path && t'.nodes[op.node].path == n.path;
  }

  lemma ApplyHandsOut(t: Tree, op: TreeOp)
    requires TreeOk(t) && op.node < |t.nodes|
    ensures var t' := Apply(t, op);
            && (forall i :: 0 <= i < |t'.calls| ==> HandedOut(t', t'.calls[i]))
            && (forall j :: 0 <= j < |t'.nodes| ==> t'.nodes[j].path == [] || HandedOut(t', t'.nodes[j].path))
  {
    var t' := Apply(t, op);
    ApplyNodes(t, op);
    forall j | 0 <= j < |t'.nodes| ensures t'.nodes[j].path == [] || HandedOut(t', t'.nodes[j].path) {
      if j < |t.nodes| && t.nodes[j].path != [] { HandedOutStays(t, op, t.nodes[j].path); }
    }
    forall i | 0 <= i < |t'.calls| ensures HandedOut(t', t'.calls[i]) {
      if i < |t.calls| { HandedOutStays(t, op, t.calls[i]); }
    }
  }

  lemma ApplyKeepsTreeOk(t: Tree, op: TreeOp)
    requires TreeOk(t)
    ensures TreeOk(Apply(t, op))
  {
    if op.node < |t.nodes| {
      NextIsNew(t, op.node);
      ApplyNodes(t, op);
      ApplyHandsOut(t, op);
    }
  }

  lemma {:induction false} ApplyAllKeepsTreeOk(ops: seq<TreeOp>)
    ensures TreeOk(ApplyAll(ROOT_ONLY, ops))
  {
    if ops != [] {
      ApplyAllKeepsTreeOk(ops[..|ops| - 1]);
      ApplyKeepsTreeOk(ApplyAll(ROOT_ONLY, ops[..|ops| - 1]), ops[|ops| - 1]);
    }
  }

  /** In any interleaving of calls and forks on all nodes, no two calls get the same key,
      and no call's key is the prefix of a subtree. */
  lemma CallKeysUnique(ops: seq<TreeOp>)
    ensures var t := ApplyAll(ROOT_ONLY, ops);
            && (forall i, j :: 0 <= i < |t.calls| && 0 <= j < |t.calls| && Dotted(t.calls[i]) == Dotted(t.calls[j]) ==> i == j)
            && (forall i, j :: 0 <= i < |t.calls| && 0 <= j < |t.nodes| ==> Dotted(t.calls[i]) != Dotted(t.nodes[j].path))
  {
    ApplyAllKeepsTreeOk(ops);
    var t := ApplyAll(ROOT_ONLY, ops);
    forall p: Path, q: Path | Dotted(p) == Dotted(q) ensures p == q { DottedInjective(p, q); }
    forall i, j | 0 <= i < |t.calls| && 0 <= j < |t.calls| && Dotted(t.calls[i]) == Dotted(t.calls[j]) ensures i == j {
      assert t.calls[i] == t.calls[j];
    }
  }
}
