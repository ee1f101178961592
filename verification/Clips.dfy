/** How long each still of a video is held: the target length shared out by narration length, with a floor per clip. */
module Clips {
  import opened Seqs

  const MinClipSeconds := 2.0

  /** Rounded to hundredths, halves up. */
  function Round2(x: real): real {
    (x * 100.0 + 0.5).Floor as real / 100.0
  }

  /** A blank narration weighs as one word. */
  function Weight(words: nat): nat {
    if words > 0 then words else 1
  }

  function SumWeights(words: seq<nat>): nat {
    if words == [] then 0 else SumWeights(words[..|words| - 1]) + Weight(Last(words))
  }

  function Sum(xs: seq<real>): real {
    if xs == [] then 0.0 else Sum(xs[..|xs| - 1]) + Last(xs)
  }

  function FloorTotal(n: nat): real {
    2.0 * n as real
  }

  function Budget(n: nat, target: real): real {
    if target > FloorTotal(n) then target else FloorTotal(n)
  }

  /** One clip before rounding: the floor and a share of what is left of the budget. */
  function Exact(flexible: real, w: nat, weightSum: nat): real
    requires weightSum > 0
  {
    MinClipSeconds + flexible * w as real / weightSum as real
  }

  function Clip(flexible: real, weightSum: nat): nat -> real
    requires weightSum > 0
  {
    (words: nat) => Round2(Exact(flexible, Weight(words), weightSum))
  }

  /** The scenes are given by the word counts of their narration. */
  function AllocateDurations(words: seq<nat>, target: real): seq<real> {
    if words == [] then []
    else
      WeightsArePositive(words);
      Map(words, Clip(Budget(|words|, target) - FloorTotal(|words|), SumWeights(words)))
  }

  /** What the assembler reports as the video's length. */
  function AssembledSeconds(clips: seq<real>): real {
    Round2(Sum(clips))
  }

  lemma {:induction false} WeightsArePositive(words: seq<nat>)
    ensures SumWeights(words) >= |words|
  {
    if words != [] { WeightsArePositive(words[..|words| - 1]); }
  }

  // ---- rounding -------------------------------------------------------------

  lemma RoundIsClose(x: real)
    ensures -1.0 / 200.0 <= Round2(x) - x <= 1.0 / 200.0
  {
    var n := (x * 100.0 + 0.5).Floor as real;
    assert n <= x * 100.0 + 0.5 < n + 1.0;
  }

  lemma RoundIsMonotone(x: real, y: real)
    requires x <= y
    ensures Round2(x) <= Round2(y)
  {
    var a, b := x * 100.0 + 0.5, y * 100.0 + 0.5;
    assert a <= b;
    assert a.Floor <= b.Floor;
  }

  /** A whole number of hundredths. */
  predicate Hundredths(x: real) {
    (x * 100.0).Floor as real == x * 100.0
  }

  lemma HundredthsRoundToThemselves(x: real)
    requires Hundredths(x)
    ensures Round2(x) == x
  {
    var k := (x * 100.0).Floor;
    assert (k as real + 0.5).Floor == k;
  }

  lemma RoundedIsHundredths(x: real)
    ensures Hundredths(Round2(x))
  {
    var k := (x * 100.0 + 0.5).Floor;
    assert Round2(x) * 100.0 == k as real;
  }

  lemma HundredthsAdd(x: real, y: real)
    requires Hundredths(x) && Hundredths(y)
    ensures Hundredths(x + y)
  {
    var k, l := (x * 100.0).Floor, (y * 100.0).Floor;
    assert (x + y) * 100.0 == (k + l) as real;
  }

  // ---- clips ----------------------------------------------------------------

  lemma ShareGrows(flexible: real, w: nat, w': nat, weightSum: nat)
    requires weightSum > 0 && flexible >= 0.0 && w <= w'
    ensures MinClipSeconds <= Exact(flexible, w, weightSum) <= Exact(flexible, w', weightSum)
  {
    var s := weightSum as real;
    Scale(flexible, w as real, w' as real);
    Divide(0.0, flexible * w as real, s);
    Divide(flexible * w as real, flexible * w' as real, s);
  }

  lemma Scale(f: real, a: real, b: real)
    requires f >= 0.0 && 0.0 <= a <= b
    ensures 0.0 <= f * a <= f * b
  {
    assert f * (b - a) >= 0.0;
  }

  lemma Divide(a: real, b: real, s: real)
    requires s > 0.0 && a <= b
    ensures a / s <= b / s
  {
  }

  /** No clip is shorter than the floor. */
  lemma ClipsAreLongEnough(words: seq<nat>, target: real, i: nat)
    requires i < |words|
    ensures AllocateDurations(words, target)[i] >= 2.0
  {
    WeightsArePositive(words);
    var flexible := Budget(|words|, target) - FloorTotal(|words|);
    ShareGrows(flexible, Weight(words[i]), Weight(words[i]), SumWeights(words));
    RoundIsMonotone(MinClipSeconds, Exact(flexible, Weight(words[i]), SumWeights(words)));
    HundredthsRoundToThemselves(MinClipSeconds);
  }

  /** A longer narration never gets a shorter clip. */
  lemma LongerNarrationLongerClip(words: seq<nat>, target: real, i: nat, j: nat)
    requires i < |words| && j < |words| && words[i] <= words[j]
    ensures AllocateDurations(words, target)[i] <= AllocateDurations(words, target)[j]
  {
    WeightsArePositive(words);
    var flexible, total := Budget(|words|, target) - FloorTotal(|words|), SumWeights(words);
    ShareGrows(flexible, Weight(words[i]), Weight(words[j]), total);
    RoundIsMonotone(Exact(flexible, Weight(words[i]), total), Exact(flexible, Weight(words[j]), total));
  }

  lemma QuotientTimes(p: real, s: real)
    requires s > 0.0
    ensures p / s * s == p
  {
  }

  lemma SameQuotient(x: real, y: real, s: real)
    requires s > 0.0 && x * s == y * s
    ensures x == y
  {
  }

  lemma ShareIsRate(f: real, w: real, s: real, rate: real, x: real)
    requires s > 0.0 && rate * s == f && x * s == f * w
    ensures x == rate * w
  {
    assert f * w == rate * w * s;
    SameQuotient(x, rate * w, s);
  }

  /** A clip of `w` words has two seconds and that many times the rate, up to half a hundredth. */
  predicate HasRate(clip: real, words: nat, rate: real) {
    var w := if words == 0 then 1 else words;
    -1.0 / 200.0 <= clip - (2.0 + rate * w as real) <= 1.0 / 200.0
  }

  lemma CloseHasRate(clip: real, exact: real, words: nat, rate: real, x: real)
    requires -1.0 / 200.0 <= clip - exact <= 1.0 / 200.0 && exact == 2.0 + x
    requires x == rate * (if words == 0 then 1 else words) as real
    ensures HasRate(clip, words, rate)
  {
  }

  lemma ExactIs(f: real, w: nat, total: nat) returns (x: real)
    requires total > 0
    ensures Exact(f, w, total) == 2.0 + x && x * total as real == f * w as real
  {
    x := f * w as real / total as real;
    QuotientTimes(f * w as real, total as real);
  }

  lemma ClipHasRate(f: real, words: nat, total: nat, rate: real)
    requires total > 0 && rate * total as real == f
    ensures HasRate(Clip(f, total)(words), words, rate)
  {
    var exact := Exact(f, Weight(words), total);
    var x := ExactIs(f, Weight(words), total);
    ShareIsRate(f, Weight(words) as real, total as real, rate, x);
    RoundIsClose(exact);
    CloseHasRate(Round2(exact), exact, words, rate, x);
  }

  lemma RateFor(words: seq<nat>, f: real, total: nat, clips: seq<real>) returns (rate: real)
    requires total > 0 && f >= 0.0 && clips == Map(words, Clip(f, total))
    ensures rate >= 0.0 && forall i :: 0 <= i < |words| ==> HasRate(clips[i], words[i], rate)
  {
    Divide(0.0, f, total as real);
    QuotientTimes(f, total as real);
    rate := f / total as real;
    forall i | 0 <= i < |words| ensures HasRate(clips[i], words[i], rate) {
      ClipHasRate(f, words[i], total, rate);
    }
  }

  /** The part of every clip above two seconds is in proportion to the words of its narration, a blank one counting as one. */
  lemma ClipsAreInProportion(words: seq<nat>, target: real) returns (rate: real)
    ensures rate >= 0.0 && forall i :: 0 <= i < |words| ==> HasRate(AllocateDurations(words, target)[i], words[i], rate)
  {
    if words == [] {
      rate := 0.0;
    } else {
      WeightsArePositive(words);
      rate := RateFor(words, Budget(|words|, target) - FloorTotal(|words|), SumWeights(words), AllocateDurations(words, target));
    }
  }

  function Share(flexible: real, weightSum: nat): nat -> real
    requires weightSum > 0
  {
    (words: nat) => Exact(flexible, Weight(words), weightSum)
  }

  function Rounded(): real -> real {
    (x: real) => Round2(x)
  }

  /** Rounding each of `n` numbers moves their sum by at most n/200. */
  lemma {:induction false} RoundedSum(xs: seq<real>)
    ensures -(|xs| as real) / 200.0 <= Sum(Map(xs, Rounded())) - Sum(xs) <= |xs| as real / 200.0
  {
    if xs != [] {
      var init := xs[..|xs| - 1];
      RoundedSum(init);
      assert Map(xs, Rounded())[..|init|] == Map(init, Rounded());
      RoundIsClose(Last(xs));
    }
  }

  lemma SharesAdd(f: real, a: real, b: real, s: real)
    requires s > 0.0
    ensures f * (a + b) / s == f * a / s + f * b / s
  {
    var x, y := f * a, f * b;
    assert f * (a + b) == x + y;
    assert (x + y) / s == x / s + y / s;
  }

  /** `x` is what `w` of `weightSum` words get: the floors and their share. */
  predicate IsShareOf(x: real, n: nat, flexible: real, w: nat, weightSum: nat)
    requires weightSum > 0
  {
    x == FloorTotal(n) + flexible * w as real / weightSum as real
  }

  lemma OneMoreShare(x: real, n: nat, flexible: real, w: nat, w': nat, weightSum: nat)
    requires weightSum > 0 && IsShareOf(x, n, flexible, w, weightSum)
    ensures IsShareOf(x + Exact(flexible, w', weightSum), n + 1, flexible, w + w', weightSum)
  {
    SharesAdd(flexible, w as real, w' as real, weightSum as real);
  }

  /** Before rounding the clips are the floors and the flexible part, shared out completely. */
  lemma {:induction false} SharesSum(words: seq<nat>, flexible: real, weightSum: nat)
    requires weightSum > 0
    ensures IsShareOf(Sum(Map(words, Share(flexible, weightSum))), |words|, flexible, SumWeights(words), weightSum)
  {
    if words == [] {
      assert flexible * 0.0 == 0.0;
    } else {
      var init := words[..|words| - 1];
      SharesSum(init, flexible, weightSum);
      var shares := Map(words, Share(flexible, weightSum));
      assert shares[..|init|] == Map(init, Share(flexible, weightSum));
      OneMoreShare(Sum(shares[..|init|]), |init|, flexible, SumWeights(init), Weight(Last(words)), weightSum);
    }
  }

  lemma AllShares(n: nat, flexible: real, weightSum: nat, x: real)
    requires weightSum > 0 && IsShareOf(x, n, flexible, weightSum, weightSum)
    ensures x == FloorTotal(n) + flexible
  {
    var s := weightSum as real;
    assert flexible * s / s == flexible;
  }

  /** The clips together miss the target, or two seconds a clip if that is more, by at most n/200 seconds. */
  lemma TotalIsClose(words: seq<nat>, target: real)
    requires words != []
    ensures var n := |words| as real;
      -n / 200.0 <= Sum(AllocateDurations(words, target)) - (if target > 2.0 * n then target else 2.0 * n) <= n / 200.0
  {
    WeightsArePositive(words);
    var flexible, total := Budget(|words|, target) - FloorTotal(|words|), SumWeights(words);
    var shares := Map(words, Share(flexible, total));
    SharesSum(words, flexible, total);
    AllShares(|words|, flexible, total, Sum(shares));
    RoundedSum(shares);
    assert Map(shares, Rounded()) == AllocateDurations(words, target);
  }

  lemma {:induction false} SumIsHundredths(xs: seq<real>)
    requires forall i :: 0 <= i < |xs| ==> Hundredths(xs[i])
    ensures Hundredths(Sum(xs))
  {
    if xs != [] {
      SumIsHundredths(xs[..|xs| - 1]);
      HundredthsAdd(Sum(xs[..|xs| - 1]), Last(xs));
    }
  }

  /** The assembler's rounded total is the exact sum of the clips. */
  lemma AssembledIsSum(words: seq<nat>, target: real)
    ensures AssembledSeconds(AllocateDurations(words, target)) == Sum(AllocateDurations(words, target))
  {
    var clips := AllocateDurations(words, target);
    forall i | 0 <= i < |clips| ensures Hundredths(clips[i]) {
      WeightsArePositive(words);
      RoundedIsHundredths(Exact(Budget(|words|, target) - FloorTotal(|words|), Weight(words[i]), SumWeights(words)));
    }
    SumIsHundredths(clips);
    HundredthsRoundToThemselves(Sum(clips));
  }
}
