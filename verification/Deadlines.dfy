/** The stack of suspension deadlines a script thread keeps: deadline(secs, fn) pushes one for
    the extent of fn, and recv waits until the soonest one. */
module Deadlines {

  /** The soonest active deadline; 0 when there is none. */
  function Soonest(ds: seq<int>): (best: int)
    ensures best >= 0
    ensures best == 0 ==> forall d :: d in ds ==> d <= 0
    ensures best > 0 ==> best in ds && forall d :: d in ds && d > 0 ==> best <= d
  {
    if ds == [] then 0 else
      assert ds == ds[..|ds| - 1] + [ds[|ds| - 1]];
      var best, d := Soonest(ds[..|ds| - 1]), ds[|ds| - 1];
      if d > 0 && (best == 0 || d < best) then d else best
  }

  class Thread {
    var deadlines: seq<int>

    constructor ()
      ensures deadlines == []
    {
      deadlines := [];
    }

    method PushDeadline(abs: int)
      modifies this
      ensures deadlines == old(deadlines) + [abs]
    {
      deadlines := deadlines + [abs];
    }

    method PopDeadline()
      modifies this
      ensures deadlines == if old(deadlines) == [] then [] else old(deadlines)[..|old(deadlines)| - 1]
    {
      if |deadlines| > 0 { deadlines := deadlines[..|deadlines| - 1]; }
    }

    method EffectiveDeadline() returns (best: int)
      ensures best == Soonest(deadlines)
    {
      best := 0;
      for i := 0 to |deadlines|
        invariant best == Soonest(deadlines[..i])
      {
        assert deadlines[..i + 1][..i] == deadlines[..i];
        var d := deadlines[i];
        if d > 0 && (best == 0 || d < best) { best := d; }
      }
      assert deadlines[..|deadlines|] == deadlines;
    }
  }

  /** A nested deadline only ever tightens the wait, and the wait is the same again after it:
      the tighter of the two bounds holds inside, whichever was set first. */
  lemma NestedDeadline(outer: seq<int>, abs: int)
    ensures var inner := Soonest(outer + [abs]);
            && (abs <= 0 ==> inner == Soonest(outer))
            && (abs > 0 && Soonest(outer) == 0 ==> inner == abs)
            && (abs > 0 && Soonest(outer) > 0 ==> inner == if abs < Soonest(outer) then abs else Soonest(outer))
    ensures (outer + [abs])[..|outer + [abs]| - 1] == outer
  {
    assert (outer + [abs])[..|outer|] == outer;
  }
}
