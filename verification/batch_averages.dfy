/**
 * `calculateAverageYields` of the batch service
 * (src/app/core/services/batch.service.ts): the element-wise mean of the outputs of
 * a list of batches, all zeros for an empty list.
 */
module BatchAverages {
  import opened Models

  /** The all-zero outputs: the `reduce` seed and the answer for no batches. */
  const NoOutputs: CannabinoidOutputs := CannabinoidOutputs(0.0, 0.0, 0.0)

  /** Element-wise sum of two outputs (the `reduce` callback). */
  function Add(a: CannabinoidOutputs, b: CannabinoidOutputs): CannabinoidOutputs {
    CannabinoidOutputs(a.thca + b.thca, a.cbda + b.cbda, a.cbca + b.cbca)
  }

  /**
   * The `reduce` of `calculateAverageYields`: a left fold of `Add` from zero. A single
   * batch sums to its own outputs (the zero start adds nothing).
   */
  function SumOutputs(batches: seq<Batch>): (r: CannabinoidOutputs)
    decreases |batches|
    ensures |batches| == 1 ==> r == batches[0].outputs
  {
    if |batches| == 0 then NoOutputs
    else Add(SumOutputs(batches[..|batches| - 1]), batches[|batches| - 1].outputs)
  }

  /** `calculateAverageYields`. */
  function CalculateAverageYields(batches: seq<Batch>): (r: CannabinoidOutputs)
    ensures |batches| == 0 ==> r == NoOutputs
    ensures |batches| > 0 ==>
      var n := |batches| as real;
      && r.thca * n == SumOutputs(batches).thca
      && r.cbda * n == SumOutputs(batches).cbda
      && r.cbca * n == SumOutputs(batches).cbca
  {
    if |batches| == 0 then NoOutputs
    else
      var totals := SumOutputs(batches);
      var n := |batches| as real;
      CannabinoidOutputs(totals.thca / n, totals.cbda / n, totals.cbca / n)
  }

  /** The fold distributes over concatenation. */
  lemma {:induction false} SumOfConcat(a: seq<Batch>, b: seq<Batch>)
    ensures SumOutputs(a + b) == Add(SumOutputs(a), SumOutputs(b))
    decreases |b|
  {
    if |b| == 0 {
      assert a + b == a;
    } else {
      var last := |b| - 1;
      assert (a + b)[..|a + b| - 1] == a + b[..last];
      assert (a + b)[|a + b| - 1] == b[last];
      SumOfConcat(a, b[..last]);
    }
  }

  /** Taking one batch out of the list takes its outputs out of the sum. */
  lemma {:induction false} SumWithoutOne(b: seq<Batch>, j: nat)
    requires j < |b|
    ensures SumOutputs(b) == Add(SumOutputs(b[..j] + b[j + 1..]), b[j].outputs)
    decreases |b|
  {
    var init := b[..|b| - 1];
    if j == |b| - 1 {
      assert b[..j] + b[j + 1..] == init;
    } else {
      var rest := init[..j] + init[j + 1..];
      SumWithoutOne(init, j);
      assert b[..j] + b[j + 1..] == rest + [b[|b| - 1]];
      assert (rest + [b[|b| - 1]])[..|rest|] == rest;
    }
  }

  /** Taking one element out of a list takes one copy of it out of the multiset. */
  lemma MultisetWithoutOne(b: seq<Batch>, j: nat)
    requires j < |b|
    ensures multiset(b[..j] + b[j + 1..]) == multiset(b) - multiset{b[j]}
  {
    assert b == b[..j] + [b[j]] + b[j + 1..];
    assert multiset(b) == multiset(b[..j]) + multiset{b[j]} + multiset(b[j + 1..]);
  }

  /** Reordering the batches does not change the sum. */
  lemma {:induction false} SumIgnoresOrder(a: seq<Batch>, b: seq<Batch>)
    requires multiset(a) == multiset(b)
    ensures SumOutputs(a) == SumOutputs(b)
    decreases |a|
  {
    if |a| == 0 {
      assert |b| == |multiset(b)| == 0;
    } else {
      var last := a[|a| - 1];
      var init := a[..|a| - 1];
      assert a == init + [last];
      assert multiset(init) == multiset(a) - multiset{last};
      assert last in multiset(b);
      var j :| 0 <= j < |b| && b[j] == last;
      MultisetWithoutOne(b, j);
      SumIgnoresOrder(init, b[..j] + b[j + 1..]);
      SumWithoutOne(b, j);
    }
  }

  /** The averages do not depend on the order of the batches. */
  lemma AveragesIgnoreOrder(a: seq<Batch>, b: seq<Batch>)
    requires multiset(a) == multiset(b)
    ensures CalculateAverageYields(a) == CalculateAverageYields(b)
  {
    assert |a| == |multiset(a)| == |multiset(b)| == |b|;
    SumIgnoresOrder(a, b);
  }

  /** Summing `n` batches with the same outputs gives `n` times those outputs. */
  lemma {:induction false} SumOfIdentical(batches: seq<Batch>, o: CannabinoidOutputs)
    requires forall i :: 0 <= i < |batches| ==> batches[i].outputs == o
    ensures var n := |batches| as real;
      SumOutputs(batches) == CannabinoidOutputs(n * o.thca, n * o.cbda, n * o.cbca)
    decreases |batches|
  {
    if |batches| > 0 {
      var init := batches[..|batches| - 1];
      SumOfIdentical(init, o);
      var m := |init| as real;
      assert SumOutputs(batches) == Add(SumOutputs(init), o);
      assert |batches| as real == m + 1.0;
      assert (m + 1.0) * o.thca == m * o.thca + o.thca;
      assert (m + 1.0) * o.cbda == m * o.cbda + o.cbda;
      assert (m + 1.0) * o.cbca == m * o.cbca + o.cbca;
    }
  }

  /** The average of batches that all have the same outputs is those outputs. */
  lemma AverageOfIdenticalOutputs(batches: seq<Batch>, o: CannabinoidOutputs)
    requires |batches| > 0
    requires forall i :: 0 <= i < |batches| ==> batches[i].outputs == o
    ensures CalculateAverageYields(batches) == o
  {
    SumOfIdentical(batches, o);
  }

  /** The three products, to speak of one output percentage at a time. */
  datatype Cannabinoid = THCA | CBDA | CBCA

  /** One output percentage. */
  function Component(o: CannabinoidOutputs, c: Cannabinoid): real {
    match c
    case THCA => o.thca
    case CBDA => o.cbda
    case CBCA => o.cbca
  }

  /** Each output percentage lies in `[lo, hi]`. */
  predicate WithinBounds(o: CannabinoidOutputs, lo: real, hi: real) {
    lo <= o.thca <= hi && lo <= o.cbda <= hi && lo <= o.cbca <= hi
  }

  /** Sum of a list of reals, folded from the left like the `reduce`. */
  function RealSum(xs: seq<real>): real
    decreases |xs|
  {
    if |xs| == 0 then 0.0 else RealSum(xs[..|xs| - 1]) + xs[|xs| - 1]
  }

  /** Output `c` of every batch, in order. */
  function Project(batches: seq<Batch>, c: Cannabinoid): (xs: seq<real>)
    ensures |xs| == |batches|
    ensures forall i :: 0 <= i < |batches| ==> xs[i] == Component(batches[i].outputs, c)
  {
    seq(|batches|, i requires 0 <= i < |batches| => Component(batches[i].outputs, c))
  }

  /** Output `c` of the sum of outputs is the sum of the outputs `c`. */
  lemma {:induction false} SumProjects(batches: seq<Batch>, c: Cannabinoid)
    ensures Component(SumOutputs(batches), c) == RealSum(Project(batches, c))
    decreases |batches|
  {
    if |batches| > 0 {
      var init := batches[..|batches| - 1];
      SumProjects(init, c);
      assert Project(batches, c)[..|batches| - 1] == Project(init, c);
    }
  }

  /** A sum of `n` reals within `[lo, hi]` lies within `[n * lo, n * hi]`. */
  lemma {:induction false} RealSumWithinBounds(xs: seq<real>, lo: real, hi: real)
    requires forall i :: 0 <= i < |xs| ==> lo <= xs[i] <= hi
    ensures |xs| as real * lo <= RealSum(xs) <= |xs| as real * hi
    decreases |xs|
  {
    if |xs| > 0 {
      var init := xs[..|xs| - 1];
      RealSumWithinBounds(init, lo, hi);
      BoundStep(|init| as real, RealSum(init), xs[|xs| - 1], lo, hi);
      assert |xs| as real == |init| as real + 1.0;
    }
  }

  /** One more value within `[lo, hi]` widens the bounds of a sum by one step. */
  lemma BoundStep(m: real, sum: real, x: real, lo: real, hi: real)
    requires m * lo <= sum <= m * hi
    requires lo <= x <= hi
    ensures (m + 1.0) * lo <= sum + x <= (m + 1.0) * hi
  {
  }

  /**
   * The mean stays within the bounds of its inputs; with the form's bounds (every
   * output in [0, 100]) the averages are percentages again.
   */
  lemma AveragesWithinBounds(batches: seq<Batch>, lo: real, hi: real)
    requires |batches| > 0
    requires forall i :: 0 <= i < |batches| ==> WithinBounds(batches[i].outputs, lo, hi)
    ensures WithinBounds(CalculateAverageYields(batches), lo, hi)
  {
    var r := CalculateAverageYields(batches);
    SumProjects(batches, THCA);
    MeanWithinBounds(Project(batches, THCA), r.thca, lo, hi);
    SumProjects(batches, CBDA);
    MeanWithinBounds(Project(batches, CBDA), r.cbda, lo, hi);
    SumProjects(batches, CBCA);
    MeanWithinBounds(Project(batches, CBCA), r.cbca, lo, hi);
  }

  /** A value that is the mean of reals within `[lo, hi]` lies within `[lo, hi]`. */
  lemma MeanWithinBounds(xs: seq<real>, mean: real, lo: real, hi: real)
    requires |xs| > 0
    requires forall i :: 0 <= i < |xs| ==> lo <= xs[i] <= hi
    requires mean * |xs| as real == RealSum(xs)
    ensures lo <= mean <= hi
  {
    RealSumWithinBounds(xs, lo, hi);
    ScaledBounds(mean, |xs| as real, lo, hi);
  }

  /** Dividing `[n * lo, n * hi]` by a positive `n`. */
  lemma ScaledBounds(x: real, n: real, lo: real, hi: real)
    requires n > 0.0
    requires n * lo <= x * n <= n * hi
    ensures lo <= x <= hi
  {
  }
}
