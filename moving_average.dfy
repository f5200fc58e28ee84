/** The incremental moving average of src/moving_average.rs. It keeps only a
    counter and the current average. While the counter is below its cap the
    average is the exact mean of the values added so far; once the counter
    reaches the cap the divisor stays fixed and the recurrence
    `average := average + (x - average) / n` becomes an exponential moving
    average with smoothing factor `1 / max_counter`. No value is ever evicted:
    this is not a ring buffer. */
module MovingAverages {

  function Min(a: int, b: int): int { if a <= b then a else b }
  function MinR(a: real, b: real): real { if a <= b then a else b }
  function MaxR(a: real, b: real): real { if a <= b then b else a }

  /** The value held by a `MovingAverage`. */
  datatype Filter = Filter(maxCounter: nat, counter: nat, average: real)
  {
    /** The counter never passes its cap. */
    predicate Valid() { counter <= maxCounter }

    /** The divisor `n` the next `add` uses: the incremented counter, or the
        cap once the counter has reached it. */
    function Divisor(): (n: nat)
      requires Valid()
      ensures n == Min(counter + 1, maxCounter)
    {
      if counter == maxCounter then maxCounter else counter + 1
    }
  }

  /** `MovingAverage::new`. */
  function Fresh(maxCounter: nat): (f: Filter)
    ensures f.Valid() && f.maxCounter == maxCounter && f.counter == 0
    // The first value added becomes the average, whatever the start value.
    ensures maxCounter >= 1 ==> forall x :: Added(f, x).average == x
  {
    Filter(maxCounter, 0, 0.0)
  }

  /** `MovingAverage::add` on the value. The source divides by `n` with no
      guard, so a cap of zero would divide by zero: it is required here. */
  function Added(f: Filter, x: real): (g: Filter)
    requires f.Valid() && f.maxCounter >= 1
    ensures g.Valid() && g.maxCounter == f.maxCounter
    ensures g.counter == Min(f.counter + 1, f.maxCounter)
    // The identity the source derives: the new average weighs the old one as
    // the mean of n - 1 values and x as the n-th.
    ensures g.average == ((f.Divisor() - 1) as real * f.average + x) / f.Divisor() as real
    // The new average lies between the old average and x.
    ensures MinR(f.average, x) <= g.average <= MaxR(f.average, x)
    ensures f.counter == 0 ==> g.average == x
    ensures f.maxCounter == 1 ==> g.average == x
  {
    var n := f.Divisor();
    var counter := if f.counter == f.maxCounter then f.counter else f.counter + 1;
    var average := f.average + (x - f.average) / n as real;
    BlendIdentity(f.average, x, n);
    BlendBetween(f.average, x, n as real);
    assert n == 1 ==> average == x;
    Filter(f.maxCounter, counter, average)
  }

  lemma BlendIdentity(a: real, x: real, n: nat)
    requires n >= 1
    ensures a + (x - a) / n as real == ((n - 1) as real * a + x) / n as real
  {
    var r := n as real;
    calc {
      ((n - 1) as real * a + x) / r;
      == (r * a + (x - a)) / r;
      == r * a / r + (x - a) / r;
      == { assert r * a / r == a; } a + (x - a) / r;
    }
  }

  lemma BlendBetween(a: real, x: real, n: real)
    requires n >= 1.0
    ensures MinR(a, x) <= a + (x - a) / n <= MaxR(a, x)
  {
    var d := x - a;
    if d >= 0.0 {
      assert 0.0 <= d / n <= d;
    } else {
      assert d <= d / n <= 0.0;
    }
  }

  /** The value after adding every element of `xs`, first to last. */
  function AddAll(f: Filter, xs: seq<real>): (g: Filter)
    requires f.Valid() && f.maxCounter >= 1
    ensures g.Valid() && g.maxCounter == f.maxCounter
    ensures f.counter <= g.counter
    decreases |xs|
  {
    if xs == [] then f else AddAll(Added(f, xs[0]), xs[1..])
  }

  /** Adding any number of values keeps the value valid, never changes the
      cap, and advances the counter by one per value until it reaches the cap. */
  lemma {:induction false} AddAllCounter(f: Filter, xs: seq<real>)
    requires f.Valid() && f.maxCounter >= 1
    ensures AddAll(f, xs).Valid()
    ensures AddAll(f, xs).maxCounter == f.maxCounter
    ensures AddAll(f, xs).counter == Min(f.counter + |xs|, f.maxCounter)
    decreases |xs|
  {
    if xs != [] {
      AddAllCounter(Added(f, xs[0]), xs[1..]);
    }
  }

  /** Adding `xs + [x]` adds `xs`, then `x`. */
  lemma {:induction false} AddAllSnoc(f: Filter, xs: seq<real>, x: real)
    requires f.Valid() && f.maxCounter >= 1
    ensures AddAll(f, xs).Valid() && AddAll(f, xs).maxCounter >= 1
    ensures AddAll(f, xs + [x]) == Added(AddAll(f, xs), x)
    decreases |xs|
  {
    AddAllCounter(f, xs);
    if xs == [] {
      assert [x][1..] == [];
    } else {
      assert (xs + [x])[1..] == xs[1..] + [x];
      AddAllSnoc(Added(f, xs[0]), xs[1..], x);
    }
  }

  /** After k calls on a fresh instance the counter is min(k, max_counter). */
  lemma CounterAfterCalls(maxCounter: nat, xs: seq<real>)
    requires maxCounter >= 1
    ensures AddAll(Fresh(maxCounter), xs).counter == Min(|xs|, maxCounter)
  {
    AddAllCounter(Fresh(maxCounter), xs);
  }

  /** The k-th call on a fresh instance divides by min(k, max_counter):
      by k while k is at most the cap, and by the cap ever after. */
  lemma DivisorOfCall(maxCounter: nat, xs: seq<real>, k: nat)
    requires maxCounter >= 1
    requires 1 <= k <= |xs|
    ensures AddAll(Fresh(maxCounter), xs[..k - 1]).Valid()
    ensures AddAll(Fresh(maxCounter), xs[..k - 1]).Divisor() == Min(k, maxCounter)
  {
    AddAllCounter(Fresh(maxCounter), xs[..k - 1]);
  }

  /** The sum of a sequence of reals. */
  function Sum(xs: seq<real>): real
  {
    if xs == [] then 0.0 else Sum(xs[..|xs| - 1]) + xs[|xs| - 1]
  }

  /** Until the counter reaches the cap, the average is the exact mean of the
      values added to a fresh instance. */
  lemma {:induction false} ExactMeanBeforeCap(maxCounter: nat, xs: seq<real>)
    requires 1 <= |xs| <= maxCounter
    ensures AddAll(Fresh(maxCounter), xs).average == Sum(xs) / |xs| as real
    decreases |xs|
  {
    var f := Fresh(maxCounter);
    var init, x := xs[..|xs| - 1], xs[|xs| - 1];
    assert xs == init + [x];
    AddAllSnoc(f, init, x);
    AddAllCounter(f, init);
    var g := AddAll(f, init);
    assert Sum(xs) == Sum(init) + x;
    if init == [] {
      assert g == f;
    } else {
      ExactMeanBeforeCap(maxCounter, init);
      AddedToMean(g, Sum(init), x);
    }
  }

  /** Below the cap, adding x to the mean of k values gives the mean of those
      k values and x. */
  lemma AddedToMean(g: Filter, s: real, x: real)
    requires g.Valid() && 1 <= g.counter < g.maxCounter
    requires g.average == s / g.counter as real
    ensures Added(g, x).average == (s + x) / (g.counter + 1) as real
  {
    var k, n := g.counter as real, g.Divisor();
    var a := Added(g, x);
    assert n == g.counter + 1;
    assert a.average == ((n - 1) as real * g.average + x) / n as real;
    assert (n - 1) as real == k && n as real == k + 1.0;
    assert k * g.average == s;
  }

  /** With a cap of one the average is always the last value added. */
  lemma {:induction false} WindowOfOne(xs: seq<real>)
    requires |xs| >= 1
    ensures AddAll(Fresh(1), xs).average == xs[|xs| - 1]
  {
    var init := xs[..|xs| - 1];
    assert xs == init + [xs[|xs| - 1]];
    AddAllCounter(Fresh(1), init);
    AddAllSnoc(Fresh(1), init, xs[|xs| - 1]);
  }

  /** If every value added lies within `bound` in magnitude, and so does the
      average to start with, then so does the average after all of them. */
  lemma {:induction false} AddAllBounded(f: Filter, xs: seq<real>, bound: real)
    requires f.Valid() && f.maxCounter >= 1
    requires -bound <= f.average <= bound
    requires forall i :: 0 <= i < |xs| ==> -bound <= xs[i] <= bound
    ensures -bound <= AddAll(f, xs).average <= bound
    decreases |xs|
  {
    if xs != [] {
      AddAllBounded(Added(f, xs[0]), xs[1..], bound);
    }
  }

  /** `MovingAverage` from src/moving_average.rs: the struct whose `add`
      updates its counter and average in place. */
  class MovingAverage {
    var maxCounter: nat
    var counter: nat
    var average: real

    /** The fields as a value. */
    function View(): Filter
      reads this
    {
      Filter(maxCounter, counter, average)
    }

    /** `MovingAverage::new(max_counter)`. */
    constructor (maxCounter: nat)
      ensures View() == Fresh(maxCounter)
    {
      this.maxCounter := maxCounter;
      counter := 0;
      average := 0.0;
    }

    /** `MovingAverage::add(x)`. */
    method Add(x: real)
      requires View().Valid() && maxCounter >= 1
      modifies this
      ensures View() == Added(old(View()), x)
    {
      var n: nat;
      if counter == maxCounter {
        n := maxCounter;
      } else {
        counter := counter + 1;
        n := counter;
      }
      average := average + (x - average) / (n as real);
    }
  }
}
