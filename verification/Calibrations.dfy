/** Judge-human agreement: the confusion counts and Cohen's kappa, over exact reals. */
module Calibrations {

  /** One observation; true means success. */
  datatype LabelPair = LabelPair(human: bool, judge: bool)

  datatype Stats = Stats(n: nat, agreements: nat, accuracy: real, kappa: real, tp: nat, tn: nat, fp: nat, fn: nat)

  function CountOf(pairs: seq<LabelPair>, human: bool, judge: bool): nat {
    if pairs == [] then 0 else
      CountOf(pairs[..|pairs| - 1], human, judge) + if pairs[|pairs| - 1] == LabelPair(human, judge) then 1 else 0
  }

  /** The places of the pairs the human and the judge labelled like this. */
  ghost function Where(pairs: seq<LabelPair>, human: bool, judge: bool): set<nat> {
    set i: nat | i < |pairs| && pairs[i].human == human && pairs[i].judge == judge
  }

  lemma WhereLast(pairs: seq<LabelPair>, human: bool, judge: bool)
    requires pairs != []
    ensures |Where(pairs, human, judge)| == |Where(pairs[..|pairs| - 1], human, judge)| + if pairs[|pairs| - 1] == LabelPair(human, judge) then 1 else 0
  {
    var n := |pairs| - 1;
    var all, before := Where(pairs, human, judge), Where(pairs[..n], human, judge);
    forall i: nat ensures i in before <==> i < n && pairs[i].human == human && pairs[i].judge == judge {
      if i < n { assert pairs[..n][i] == pairs[i]; }
    }
    if pairs[n] == LabelPair(human, judge) { assert all == before + {n} && n !in before; } else { assert all == before; }
  }

  lemma {:induction false} CountsPlaces(pairs: seq<LabelPair>, human: bool, judge: bool)
    ensures CountOf(pairs, human, judge) == |Where(pairs, human, judge)|
  {
    if pairs != [] {
      CountsPlaces(pairs[..|pairs| - 1], human, judge);
      WhereLast(pairs, human, judge);
    }
  }

  /** n^2 times the distance of chance agreement from one. */
  function Room(tp: real, tn: real, fp: real, fn: real): real {
    (tp + fn) * (fn + tn) + (tp + fp) * (fp + tn)
  }

  /** What kappa is for these counts: zero when both raters give every pair the same label, else
      2 (TP TN - FP FN) / Room; never outside [-1, 1]; one exactly when the raters never differ. */
  ghost predicate IsKappa(kappa: real, tp: nat, tn: nat, fp: nat, fn: nat) {
    var n := tp + tn + fp + fn;
    && -1.0 <= kappa <= 1.0
    && (tp == n || tn == n ==> kappa == 0.0)
    && (tp != n && tn != n ==>
          && Room(tp as real, tn as real, fp as real, fn as real) > 0.0
          && kappa * Room(tp as real, tn as real, fp as real, fn as real) == 2.0 * (tp as real * tn as real - fp as real * fn as real)
          && (kappa == 1.0 <==> fp == 0 && fn == 0))
  }

  /** `r` is `part` out of `whole`. */
  ghost predicate IsRate(r: real, part: nat, whole: nat) {
    r * whole as real == part as real
  }

  method Calibrate(pairs: seq<LabelPair>) returns (st: Stats)
    ensures st.tp == CountOf(pairs, true, true) && st.tn == CountOf(pairs, false, false)
    ensures st.fp == CountOf(pairs, false, true) && st.fn == CountOf(pairs, true, false)
    ensures st.n == |pairs| == st.tp + st.tn + st.fp + st.fn && st.agreements == st.tp + st.tn
    ensures pairs == [] ==> st.accuracy == 0.0 && st.kappa == 0.0
    ensures pairs != [] ==> IsRate(st.accuracy, st.agreements, st.n) && IsKappa(st.kappa, st.tp, st.tn, st.fp, st.fn)
  {
    if |pairs| == 0 { return Stats(0, 0, 0.0, 0.0, 0, 0, 0, 0); }
    var tp, tn, fp, fn := CountPairs(pairs);
    var po, kappa := Agreement(tp, tn, fp, fn);
    st := Stats(|pairs|, tp + tn, po, kappa, tp, tn, fp, fn);
  }

  /** The confusion counts. */
  method CountPairs(pairs: seq<LabelPair>) returns (tp: nat, tn: nat, fp: nat, fn: nat)
    ensures tp == CountOf(pairs, true, true) && tn == CountOf(pairs, false, false)
    ensures fp == CountOf(pairs, false, true) && fn == CountOf(pairs, true, false)
    ensures tp + tn + fp + fn == |pairs|
    ensures tp == |Where(pairs, true, true)| && tn == |Where(pairs, false, false)|
    ensures fp == |Where(pairs, false, true)| && fn == |Where(pairs, true, false)|
  {
    tp, tn, fp, fn := 0, 0, 0, 0;
    for i := 0 to |pairs|
      invariant tp == CountOf(pairs[..i], true, true) && tn == CountOf(pairs[..i], false, false)
      invariant fp == CountOf(pairs[..i], false, true) && fn == CountOf(pairs[..i], true, false)
      invariant tp + tn + fp + fn == i
    {
      assert pairs[..i + 1][..i] == pairs[..i];
      var p := pairs[i];
      if p.human && p.judge { tp := tp + 1; }
      else if !p.human && !p.judge { tn := tn + 1; }
      else if !p.human && p.judge { fp := fp + 1; }
      else { fn := fn + 1; }
    }
    assert pairs[..|pairs|] == pairs;
    CountsPlaces(pairs, true, true);
    CountsPlaces(pairs, false, false);
    CountsPlaces(pairs, false, true);
    CountsPlaces(pairs, true, false);
  }

  /** Observed agreement and kappa from the confusion counts. */
  method Agreement(tp: nat, tn: nat, fp: nat, fn: nat) returns (po: real, kappa: real)
    requires tp + tn + fp + fn > 0
    ensures IsRate(po, tp + tn, tp + tn + fp + fn) && IsKappa(kappa, tp, tn, fp, fn)
  {
    var hr, jr, pe;
    po, hr, jr, pe := Marginals(tp, tn, fp, fn);
    kappa := 0.0;
    if pe < 1.0 {
      kappa := (po - pe) / (1.0 - pe);
      QuotientBack(po - pe, 1.0 - pe, kappa);
    }
    KappaIs(tp, tn, fp, fn, hr, jr, po, pe, kappa);
  }

  /** Observed agreement, the raters' rates of passing, and the agreement they make by chance. */
  method Marginals(tp: nat, tn: nat, fp: nat, fn: nat) returns (po: real, hr: real, jr: real, pe: real)
    requires tp + tn + fp + fn > 0
    ensures IsRate(po, tp + tn, tp + tn + fp + fn) && Rates(tp as real, tn as real, fp as real, fn as real, hr, jr, pe)
  {
    var n := (tp + tn + fp + fn) as real;
    po, hr, jr := (tp + tn) as real / n, (tp + fn) as real / n, (tp + fp) as real / n;
    pe := hr * jr + (1.0 - hr) * (1.0 - jr);
    QuotientBack((tp + tn) as real, n, po);
    QuotientBack((tp + fn) as real, n, hr);
    QuotientBack((tp + fp) as real, n, jr);
  }

  // ---- Algebra

  /** `hr` and `jr` are the raters' rates of passing, `pe` the agreement they make by chance. */
  ghost predicate Rates(a: real, b: real, c: real, d: real, hr: real, jr: real, pe: real) {
    hr * (a + b + c + d) == a + d && jr * (a + b + c + d) == a + c && pe == hr * jr + (1.0 - hr) * (1.0 - jr)
  }

  lemma KappaIs(tp: nat, tn: nat, fp: nat, fn: nat, hr: real, jr: real, po: real, pe: real, kappa: real)
    requires tp + tn + fp + fn > 0 && Rates(tp as real, tn as real, fp as real, fn as real, hr, jr, pe)
    requires po * (tp + tn + fp + fn) as real == (tp + tn) as real
    requires if pe < 1.0 then kappa * (1.0 - pe) == po - pe else kappa == 0.0
    ensures IsKappa(kappa, tp, tn, fp, fn)
  {
    var a, b, c, d := tp as real, tn as real, fp as real, fn as real;
    ChanceFacts(a, b, c, d, hr, jr, pe);
    if pe < 1.0 { BelowChanceOne(a, b, c, d, hr, jr, po, pe, kappa); }
  }

  /** Chance agreement never exceeds one, and is one exactly when both raters are constant and agree. */
  lemma ChanceFacts(a: real, b: real, c: real, d: real, hr: real, jr: real, pe: real)
    requires a >= 0.0 && b >= 0.0 && c >= 0.0 && d >= 0.0 && a + b + c + d > 0.0 && Rates(a, b, c, d, hr, jr, pe)
    ensures pe <= 1.0 && (pe == 1.0 <==> a == a + b + c + d || b == a + b + c + d)
    ensures pe < 1.0 ==> Room(a, b, c, d) > 0.0
  {
    ChanceGap(a, b, c, d, hr, jr, pe);
    RoomSign(a, b, c, d);
    GapSign(1.0 - pe, a + b + c + d, Room(a, b, c, d));
  }

  lemma BelowChanceOne(a: real, b: real, c: real, d: real, hr: real, jr: real, po: real, pe: real, kappa: real)
    requires a >= 0.0 && b >= 0.0 && c >= 0.0 && d >= 0.0 && a + b + c + d > 0.0 && Rates(a, b, c, d, hr, jr, pe)
    requires po * (a + b + c + d) == a + b && pe < 1.0 && kappa * (1.0 - pe) == po - pe && Room(a, b, c, d) > 0.0
    ensures kappa * Room(a, b, c, d) == 2.0 * (a * b - c * d)
    ensures -1.0 <= kappa <= 1.0 && (kappa == 1.0 <==> c == 0.0 && d == 0.0)
  {
    ChanceGap(a, b, c, d, hr, jr, pe);
    Surplus(a, b, c, d, hr, jr, po, pe);
    KappaFacts(a, b, c, d, po - pe, 1.0 - pe, kappa);
  }

  lemma QuotientBack(x: real, y: real, q: real)
    requires y != 0.0 && q == x / y
    ensures q * y == x
  {
  }

  lemma ProductTwice(x: real, y: real, n: real)
    ensures (x * y) * (n * n) == (x * n) * (y * n)
  {
  }

  lemma Distribute(x: real, y: real, z: real)
    ensures (x + y) * z == x * z + y * z
  {
  }

  /** Chance agreement, scaled by n^2. */
  lemma ScaledChance(n: real, h: real, j: real, hr: real, jr: real, pe: real)
    requires hr * n == h && jr * n == j && pe == hr * jr + (1.0 - hr) * (1.0 - jr)
    ensures pe * (n * n) == h * j + (n - h) * (n - j)
  {
    ProductTwice(hr, jr, n);
    ProductTwice(1.0 - hr, 1.0 - jr, n);
    Distribute(1.0, -hr, n);
    Distribute(1.0, -jr, n);
    Distribute(hr * jr, (1.0 - hr) * (1.0 - jr), n * n);
  }

  /** Chance agreement lies Room / n^2 below one. */
  lemma ChanceGap(a: real, b: real, c: real, d: real, hr: real, jr: real, pe: real)
    requires Rates(a, b, c, d, hr, jr, pe)
    ensures (1.0 - pe) * ((a + b + c + d) * (a + b + c + d)) == Room(a, b, c, d)
  {
    var n := a + b + c + d;
    ScaledChance(n, a + d, a + c, hr, jr, pe);
    Distribute(1.0, -pe, n * n);
    RoomExpands(a, b, c, d);
  }

  lemma RoomExpands(a: real, b: real, c: real, d: real)
    ensures var n := a + b + c + d;
            n * n - ((a + d) * (a + c) + (n - (a + d)) * (n - (a + c))) == Room(a, b, c, d)
  {
  }

  /** Observed agreement exceeds chance by 2 (TP TN - FP FN) / n^2. */
  lemma Surplus(a: real, b: real, c: real, d: real, hr: real, jr: real, po: real, pe: real)
    requires Rates(a, b, c, d, hr, jr, pe)
    requires po * (a + b + c + d) == a + b
    ensures (po - pe) * ((a + b + c + d) * (a + b + c + d)) == 2.0 * (a * b - c * d)
  {
    var n := a + b + c + d;
    ScaledChance(n, a + d, a + c, hr, jr, pe);
    assert po * (n * n) == (po * n) * n;
    Distribute(po, -pe, n * n);
    SurplusExpands(a, b, c, d);
  }

  lemma SurplusExpands(a: real, b: real, c: real, d: real)
    ensures var n := a + b + c + d;
            (a + b) * n - ((a + d) * (a + c) + (n - (a + d)) * (n - (a + c))) == 2.0 * (a * b - c * d)
  {
  }

  /** The room vanishes exactly when both raters give every pair the same one label. */
  lemma RoomSign(a: real, b: real, c: real, d: real)
    requires a >= 0.0 && b >= 0.0 && c >= 0.0 && d >= 0.0 && a + b + c + d > 0.0
    ensures Room(a, b, c, d) >= 0.0
    ensures Room(a, b, c, d) == 0.0 <==> (a == a + b + c + d || b == a + b + c + d)
  {
    ZeroProduct(a + d, d + b);
    ZeroProduct(a + c, c + b);
  }

  lemma ZeroProduct(x: real, y: real)
    requires x >= 0.0 && y >= 0.0
    ensures x * y >= 0.0 && (x * y == 0.0 <==> x == 0.0 || y == 0.0)
  {
  }

  lemma GapSign(gap: real, n: real, room: real)
    requires n > 0.0 && gap * (n * n) == room && room >= 0.0
    ensures gap >= 0.0 && (gap == 0.0 <==> room == 0.0)
  {
    ZeroProduct(n, n);
    SignScales(gap, n * n);
  }

  lemma SignScales(x: real, m: real)
    requires m > 0.0
    ensures (x * m >= 0.0 <==> x >= 0.0) && (x * m == 0.0 <==> x == 0.0)
  {
    if x >= 0.0 { ZeroProduct(x, m); } else { ZeroProduct(-x, m); }
  }

  lemma Square(x: real)
    ensures x * x >= 0.0
  {
    if x >= 0.0 { ZeroProduct(x, x); } else { ZeroProduct(-x, -x); }
  }

  /** Below full chance agreement: the closed form and the bounds. */
  lemma KappaFacts(a: real, b: real, c: real, d: real, surplus: real, gap: real, kappa: real)
    requires a >= 0.0 && b >= 0.0 && c >= 0.0 && d >= 0.0 && a + b + c + d > 0.0 && gap > 0.0
    requires kappa * gap == surplus
    requires gap * ((a + b + c + d) * (a + b + c + d)) == Room(a, b, c, d) > 0.0
    requires surplus * ((a + b + c + d) * (a + b + c + d)) == 2.0 * (a * b - c * d)
    ensures kappa * Room(a, b, c, d) == 2.0 * (a * b - c * d)
    ensures -1.0 <= kappa <= 1.0 && (kappa == 1.0 <==> c == 0.0 && d == 0.0)
  {
    var nn := (a + b + c + d) * (a + b + c + d);
    assert kappa * (gap * nn) == (kappa * gap) * nn;
    UpperGap(a, b, c, d);
    LowerGap(a, b, c, d);
    ZeroProduct(c + d, a + b + c + d);
    Bounds(kappa, Room(a, b, c, d), 2.0 * (a * b - c * d));
  }

  lemma UpperGap(a: real, b: real, c: real, d: real)
    ensures Room(a, b, c, d) - 2.0 * (a * b - c * d) == (c + d) * (a + b + c + d)
  {
  }

  lemma LowerGap(a: real, b: real, c: real, d: real)
    requires a >= 0.0 && b >= 0.0 && c >= 0.0 && d >= 0.0
    ensures Room(a, b, c, d) + 2.0 * (a * b - c * d) >= 0.0
  {
    assert Room(a, b, c, d) + 2.0 * (a * b - c * d) == 4.0 * (a * b) + (a + b) * (c + d) + (c - d) * (c - d);
    ZeroProduct(a, b);
    ZeroProduct(a + b, c + d);
    Square(c - d);
  }

  lemma Bounds(k: real, room: real, top: real)
    requires room > 0.0 && k * room == top && -room <= top <= room
    ensures -1.0 <= k <= 1.0 && (k == 1.0 <==> top == room)
  {
    assert k > 1.0 ==> k * room > room;
    assert k < -1.0 ==> k * room < -room;
    assert (k - 1.0) * room == top - room;
  }
}
