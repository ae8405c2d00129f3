/** Scripts as abstract deterministic programs, their state inside one attempt, and the
    reference run that answers every call from a given memo. */
module Scripts {
  import opened Types
  import opened CallKeys

  /** How a script ends: with a value or with an error. */
  datatype Finish = Done(value: string) | Failed(msg: string)

  /** What parallel_map hands back: all values in input order, or its first error by index. */
  datatype JoinResult = AllDone(values: seq<string>) | FirstFailed(item: nat, msg: string)

  /** A script: the next thing it does, and how it goes on for each answer.
      An answer without a continuation is a script error. */
  datatype Prog =
    | Ret(finish: Finish)
    | Call(inv: Invocation, rest: imap<Response, Prog>)
    | Par(branches: seq<Prog>, joined: imap<JoinResult, Prog>)

  const NO_CONTINUATION := Ret(Failed("script error"))

  ghost function After<R>(rest: imap<R, Prog>, r: R): Prog {
    if r in rest then rest[r] else NO_CONTINUATION
  }

  /** A script that never forks. */
  ghost predicate Sequential(p: Prog)
    decreases p
  {
    match p
    case Ret(_) => true
    case Call(_, rest) => forall r :: r in rest ==> Sequential(rest[r])
    case Par(_, _) => false
  }

  function Join(fs: seq<Finish>): JoinResult {
    if fs == [] then AllDone([])
    else
      match Join(fs[..|fs| - 1])
      case FirstFailed(i, m) => FirstFailed(i, m)
      case AllDone(vs) =>
        match fs[|fs| - 1]
        case Done(v) => AllDone(vs + [v])
        case Failed(m) => FirstFailed(|fs| - 1, m)
  }

  /** parallel_map's loop over the error slice, in index order, after all branches have ended. */
  method ParallelMapResult(fs: seq<Finish>) returns (r: JoinResult)
    ensures r == Join(fs)
    ensures r.AllDone? ==> |r.values| == |fs| && forall i :: 0 <= i < |fs| ==> fs[i] == Done(r.values[i])
    ensures r.FirstFailed? ==> r.item < |fs| && fs[r.item] == Failed(r.msg) && forall i :: 0 <= i < r.item ==> fs[i].Done?
  {
    var values: seq<string> := [];
    for i := 0 to |fs|
      invariant Join(fs[..i]) == AllDone(values)
      invariant |values| == i && forall k :: 0 <= k < i ==> fs[k] == Done(values[k])
    {
      assert fs[..i + 1][..i] == fs[..i];
      if fs[i].Failed? {
        JoinStops(fs, i + 1);
        return FirstFailed(i, fs[i].msg);
      }
      values := values + [fs[i].value];
    }
    assert fs[..|fs|] == fs;
    return AllDone(values);
  }

  lemma {:induction false} JoinStops(fs: seq<Finish>, n: nat)
    requires n <= |fs| && Join(fs[..n]).FirstFailed?
    ensures Join(fs) == Join(fs[..n])
    decreases |fs|
  {
    if n < |fs| {
      var shorter := fs[..|fs| - 1];
      assert shorter[..n] == fs[..n];
      JoinStops(shorter, n);
    } else {
      assert fs[..n] == fs;
    }
  }

  /** Where an attempt stands at one node of the call tree. */
  datatype Stage =
    | Missed                                   // memo looked up, no record
    | Announced(intentAt: nat)                 // write-ahead intent written at this position
    | Returned(outcome: Outcome)               // executor came back, nothing recorded yet
    | Committed(resp: Response)                // result recorded, snapshot barrier still due

  datatype Node =
    | At(prog: Prog, ctr: nat)
    | Flight(inv: Invocation, rest: imap<Response, Prog>, idx: nat, stage: Stage)
    | Fan(kids: seq<Node>, joined: imap<JoinResult, Prog>, idx: nat)

  /** The memo a reference run answers from, and the capabilities granted to the script. */
  datatype Ctx = Ctx(granted: set<string>, memo: map<string, RPCRecord>)

  /** The answer a run from `c` meets under `key`: an ungranted call needs none on record. */
  ghost function Known(inv: Invocation, key: string, c: Ctx): Option<Response> {
    if inv.capability !in c.granted then Some(NotGranted(inv))
    else if key in c.memo then Some(Replayed(inv, c.memo[key]))
    else None
  }

  ghost predicate Sub(a: map<string, RPCRecord>, b: map<string, RPCRecord>) {
    forall s :: s in a ==> s in b && b[s] == a[s]
  }

  ghost predicate AllSome(fs: seq<Option<Finish>>) {
    forall i :: 0 <= i < |fs| ==> fs[i].Some?
  }

  ghost function Values(fs: seq<Option<Finish>>): (r: seq<Finish>)
    requires AllSome(fs)
    ensures |r| == |fs| && forall i :: 0 <= i < |fs| ==> r[i] == fs[i].value
  {
    seq(|fs|, i requires 0 <= i < |fs| => fs[i].value)
  }

  /** The reference run of `p` at node `path` from child index `ctr`: None when an answer is missing. */
  ghost function RefRun(p: Prog, path: Path, ctr: nat, c: Ctx): Option<Finish>
    decreases p
  {
    match p
    case Ret(f) => Some(f)
    case Call(inv, rest) =>
      var known := Known(inv, Dotted(path + [ctr]), c);
      if known.Some? then RefRest(p, known.value, path, ctr, c) else None
    case Par(branches, joined) =>
      var fs := seq(|branches|, i requires 0 <= i < |branches| => RefRun(branches[i], path + [ctr, i], 0, c));
      if AllSome(fs) then
        var j := Join(Values(fs));
        if j in joined then RefRun(joined[j], path, ctr + 1, c) else Some(NO_CONTINUATION.finish)
      else None
  }

  ghost function RefRest(p: Prog, r: Response, path: Path, ctr: nat, c: Ctx): Option<Finish>
    requires p.Call?
    decreases p, 0
  {
    if r in p.rest then RefRun(p.rest[r], path, ctr + 1, c) else Some(NO_CONTINUATION.finish)
  }

  /** The call the reference run makes at `q` (relative to `path`), if it gets that far. */
  ghost function InvAt(p: Prog, path: Path, ctr: nat, c: Ctx, q: Path): Option<Invocation>
    decreases p
  {
    if q == [] || q[0] < ctr then None else
    match p
    case Ret(_) => None
    case Call(inv, rest) =>
      if q[0] == ctr then (if |q| == 1 then Some(inv) else None)
      else
        var known := Known(inv, Dotted(path + [ctr]), c);
        if known.Some? && known.value in rest then InvAt(rest[known.value], path, ctr + 1, c, q) else None
    case Par(branches, joined) =>
      if q[0] == ctr then
        (if |q| > 2 && q[1] < |branches| then InvAt(branches[q[1]], path + [ctr, q[1]], 0, c, q[2..]) else None)
      else
        var fs := seq(|branches|, i requires 0 <= i < |branches| => RefRun(branches[i], path + [ctr, i], 0, c));
        if AllSome(fs) && Join(Values(fs)) in joined then
          InvAt(joined[Join(Values(fs))], path, ctr + 1, c, q)
        else None
  }
}
