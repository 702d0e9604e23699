/** Python's global `random` state as the generator sees it: a stream of
    `random.random()` results read one after another from a cursor. The stream
    is a finite prefix of the real one; a sampler that needs a draw beyond its
    end reports exhaustion instead of a value. */
module Rng {

  import opened RealMath

  datatype Option<T> = None | Some(value: T)

  /** Every value `random.random()` returns lies in [0, 1). */
  ghost predicate UnitDraws(draws: seq<real>) {
    forall k :: 0 <= k < |draws| ==> 0.0 <= draws[k] < 1.0
  }

  /** `random.uniform(a, b)`, which Python computes as `a + (b - a) * random()`,
      given that draw `u`. */
  function Uniform(a: real, b: real, u: real): (r: real)
    ensures a <= b && 0.0 <= u <= 1.0 ==> a <= r <= b
    ensures a < b && 0.0 <= u < 1.0 ==> a <= r < b
  {
    var r := a + (b - a) * u;
    UniformBounds(a, b, u, r);
    r
  }

  lemma UniformBounds(a: real, b: real, u: real, r: real)
    requires r == a + (b - a) * u
    ensures a <= b && 0.0 <= u <= 1.0 ==> a <= r <= b
    ensures a < b && 0.0 <= u < 1.0 ==> r < b
  {
    var width := b - a;
    assert width * (1.0 - u) == width - width * u;
    if a <= b && 0.0 <= u <= 1.0 {
      MulNonNegative(width, u);
      MulNonNegative(width, 1.0 - u);
    }
    if a < b && 0.0 <= u < 1.0 {
      MulPositive(width, 1.0 - u);
    }
  }

  /** What a sampler that reads the stream from some position yields: the value
      and the position of the first draw it left unread, or `Exhausted` when
      the stream ended before the sampler was done. */
  datatype Sampled<T> = Sampled(value: T, next: nat) | Exhausted

  /** `n` calls, one after another, of a sampler that reads the stream from a
      given position: the results in call order and the position after the
      last call, or `Exhausted` as soon as one call is. */
  function Repeat<T>(step: nat -> Sampled<T>, i: nat, n: nat): (r: Sampled<seq<T>>)
    ensures r.Sampled? ==> |r.value| == n
    decreases n
  {
    if n == 0 then Sampled([], i)
    else match Repeat(step, i, n - 1)
      case Exhausted => Exhausted
      case Sampled(xs, j) =>
        match step(j)
        case Exhausted => Exhausted
        case Sampled(x, k) => Sampled(xs + [x], k)
  }

  /** `Repeat` for one more call. */
  lemma RepeatStep<T>(step: nat -> Sampled<T>, i: nat, n: nat)
    ensures match Repeat(step, i, n)
      case Exhausted => Repeat(step, i, n + 1) == Exhausted
      case Sampled(xs, j) =>
        Repeat(step, i, n + 1)
        == match step(j)
           case Exhausted => Exhausted
           case Sampled(x, k) => Sampled(xs + [x], k)
  {
  }

  /** Once a run has run out of draws, running it longer does not help. */
  lemma {:induction false} RepeatExhausted<T>(step: nat -> Sampled<T>, i: nat, k: nat, n: nat)
    requires k <= n && Repeat(step, i, k).Exhausted?
    ensures Repeat(step, i, n).Exhausted?
    decreases n
  {
    if k < n {
      RepeatExhausted(step, i, k, n - 1);
    }
  }

  /** When every call reads at least `w` draws and stops within `bound`, a run
      of `n` calls reads at least `w * n` draws and stops within `bound`. */
  lemma {:induction false} RepeatBounds<T>(step: nat -> Sampled<T>, i: nat, n: nat, w: nat, bound: nat)
    requires i <= bound
    requires forall j: nat :: step(j).Sampled? ==> j + w <= step(j).next <= bound
    ensures Repeat(step, i, n).Sampled? ==> i + w * n <= Repeat(step, i, n).next <= bound
    decreases n
  {
    if n > 0 {
      RepeatBounds(step, i, n - 1, w, bound);
      assert w * n == w * (n - 1) + w;
    }
  }

  /** A property of every result a call yields holds of every element of a run. */
  lemma {:induction false} RepeatAll<T>(step: nat -> Sampled<T>, P: T -> bool, i: nat, n: nat)
    requires forall j: nat :: step(j).Sampled? ==> P(step(j).value)
    ensures Repeat(step, i, n).Sampled? ==> forall k :: 0 <= k < n ==> P(Repeat(step, i, n).value[k])
    decreases n
  {
    if n > 0 && Repeat(step, i, n).Sampled? {
      RepeatAll(step, P, i, n - 1);
      var prev := Repeat(step, i, n - 1);
      var xs := Repeat(step, i, n).value;
      assert xs == prev.value + [step(prev.next).value];
      forall k | 0 <= k < n
        ensures P(xs[k])
      {
        if k < n - 1 {
          assert xs[k] == prev.value[k];
        }
      }
    }
  }

  /** Runs of two samplers agree when the second yields what the first does
      wherever the first yields a value. */
  lemma {:induction false} RepeatAgree<T>(f: nat -> Sampled<T>, g: nat -> Sampled<T>, i: nat, n: nat)
    requires forall j: nat :: f(j).Sampled? ==> g(j) == f(j)
    ensures Repeat(f, i, n).Sampled? ==> Repeat(g, i, n) == Repeat(f, i, n)
    decreases n
  {
    if n > 0 {
      RepeatAgree(f, g, i, n - 1);
    }
  }

  /** A sampler that reads exactly `w` draws whenever they lie within `bound`,
      and is exhausted otherwise: a run of `n` calls succeeds exactly when
      `w * n` draws are available and then reads exactly that many. */
  lemma {:induction false} RepeatFixedWidth<T>(step: nat -> Sampled<T>, i: nat, n: nat, w: nat, bound: nat)
    requires i <= bound
    requires forall j: nat :: (step(j).Sampled? <==> j + w <= bound) && (step(j).Sampled? ==> step(j).next == j + w)
    ensures Repeat(step, i, n).Sampled? <==> i + w * n <= bound
    ensures Repeat(step, i, n).Sampled? ==> Repeat(step, i, n).next == i + w * n
    decreases n
  {
    if n > 0 {
      RepeatFixedWidth(step, i, n - 1, w, bound);
      assert w * n == w * (n - 1) + w;
    }
  }

  /** For such a sampler, the `k`-th result of a run is the call at position
      `i + w * k`. */
  lemma {:induction false} RepeatFixedWidthElements<T>(step: nat -> Sampled<T>, i: nat, n: nat, w: nat, bound: nat)
    requires i <= bound
    requires forall j: nat :: (step(j).Sampled? <==> j + w <= bound) && (step(j).Sampled? ==> step(j).next == j + w)
    ensures Repeat(step, i, n).Sampled? ==>
      forall k :: 0 <= k < n ==>
        step(i + w * k).Sampled? && Repeat(step, i, n).value[k] == step(i + w * k).value
    decreases n
  {
    if n > 0 && Repeat(step, i, n).Sampled? {
      RepeatFixedWidthElements(step, i, n - 1, w, bound);
      RepeatFixedWidth(step, i, n - 1, w, bound);
      var prev := Repeat(step, i, n - 1);
      var xs := Repeat(step, i, n).value;
      assert xs == prev.value + [step(prev.next).value];
      assert prev.next == i + w * (n - 1);
      forall k | 0 <= k < n
        ensures step(i + w * k).Sampled? && xs[k] == step(i + w * k).value
      {
        if k < n - 1 {
          assert xs[k] == prev.value[k];
        }
      }
    }
  }

  class RandomSource {
    /** The results `random.random()` will return, in order. */
    const draws: seq<real>
    /** How many of them have been consumed. */
    var cursor: nat

    ghost predicate Valid()
      reads this
    {
      cursor <= |draws| && UnitDraws(draws)
    }

    constructor (draws: seq<real>)
      requires UnitDraws(draws)
      ensures Valid() && this.draws == draws && cursor == 0
    {
      this.draws := draws;
      cursor := 0;
    }

    /** `random.random()`: the next draw, or `None` once the stream is used up. */
    method Random() returns (u: Option<real>)
      requires Valid()
      modifies this
      ensures Valid()
      ensures old(cursor) < |draws| ==> u == Some(draws[old(cursor)]) && cursor == old(cursor) + 1
      ensures old(cursor) == |draws| ==> u == None && cursor == |draws|
    {
      if cursor < |draws| {
        u := Some(draws[cursor]);
        cursor := cursor + 1;
      } else {
        u := None;
      }
    }
  }
}
