/**
 * Folds that build a sequence element by element, the shape of the source's
 * `for item in items: ... result.append(...)` loops, with and without an
 * exception that aborts the loop.
 */
module Folds {
  import opened Wrappers

  /** The concatenation of `f(x)` over `xs`, in order. */
  function FlatMap<T, U>(f: T -> seq<U>, xs: seq<T>): seq<U> {
    if xs == [] then [] else FlatMap(f, xs[..|xs| - 1]) + f(xs[|xs| - 1])
  }

  /** Folding `a + b` is folding `a`, then `b`. */
  lemma {:induction false} FlatMapConcat<T, U>(f: T -> seq<U>, a: seq<T>, b: seq<T>)
    ensures FlatMap(f, a + b) == FlatMap(f, a) + FlatMap(f, b)
    decreases |b|
  {
    if b == [] {
      assert a + b == a;
    } else {
      var b' := b[..|b| - 1];
      assert (a + b)[..|a + b| - 1] == a + b';
      assert (a + b)[|a + b| - 1] == b[|b| - 1];
      FlatMapConcat(f, a, b');
    }
  }

  lemma FlatMapSingle<T, U>(f: T -> seq<U>, x: T)
    ensures FlatMap(f, [x]) == f(x)
  {
    assert [x][..0] == [];
  }

  /**
   * Folding a function that yields at most one element: at most one result
   * per input, each coming from some input, and when every input yields one
   * the k-th result is the k-th input's.
   */
  lemma {:induction false} FlatMapAtMostOne<T, U>(f: T -> seq<U>, xs: seq<T>)
    requires forall k | 0 <= k < |xs| :: |f(xs[k])| <= 1
    ensures |FlatMap(f, xs)| <= |xs|
    ensures forall r | r in FlatMap(f, xs) :: exists k | 0 <= k < |xs| :: f(xs[k]) == [r]
    ensures (forall k | 0 <= k < |xs| :: f(xs[k]) != []) ==>
              (&& |FlatMap(f, xs)| == |xs|
               && forall k | 0 <= k < |xs| :: f(xs[k]) == [FlatMap(f, xs)[k]])
  {
    if xs != [] {
      var init := xs[..|xs| - 1];
      var last := xs[|xs| - 1];
      assert forall k | 0 <= k < |init| :: init[k] == xs[k];
      FlatMapAtMostOne(f, init);
      var ys := FlatMap(f, xs);
      assert ys == FlatMap(f, init) + f(last);
      forall r | r in ys ensures exists k | 0 <= k < |xs| :: f(xs[k]) == [r] {
        if r in FlatMap(f, init) {
          var k :| 0 <= k < |init| && f(init[k]) == [r];
          assert xs[k] == init[k];
        } else {
          assert f(xs[|xs| - 1]) == [r];
        }
      }
      if forall k | 0 <= k < |xs| :: f(xs[k]) != [] {
        forall k | 0 <= k < |xs| ensures f(xs[k]) == [ys[k]] {
          if k < |init| {
            assert xs[k] == init[k];
            assert ys[k] == FlatMap(f, init)[k];
          }
        }
      }
    }
  }

  /**
   * The same fold where `f` may raise: the error of the first element whose
   * `f` raises, else the concatenation.
   */
  function TryFlatMap<T, U, E>(f: T -> Result<seq<U>, E>, xs: seq<T>): Result<seq<U>, E> {
    if xs == [] then Success([])
    else
      match TryFlatMap(f, xs[..|xs| - 1])
      case Failure(e) => Failure(e)
      case Success(us) =>
        match f(xs[|xs| - 1])
        case Failure(e) => Failure(e)
        case Success(u) => Success(us + u)
  }

  /** The fold raises exactly when some element raises. */
  lemma {:induction false} TryFlatMapFailure<T, U, E>(f: T -> Result<seq<U>, E>, xs: seq<T>)
    ensures TryFlatMap(f, xs).Failure? <==> exists k | 0 <= k < |xs| :: f(xs[k]).Failure?
  {
    if xs != [] {
      var init := xs[..|xs| - 1];
      TryFlatMapFailure(f, init);
      if exists k | 0 <= k < |init| :: f(init[k]).Failure? {
        var k :| 0 <= k < |init| && f(init[k]).Failure?;
        assert xs[k] == init[k];
      }
      if exists k | 0 <= k < |xs| :: f(xs[k]).Failure? {
        var k :| 0 <= k < |xs| && f(xs[k]).Failure?;
        if k < |init| { assert init[k] == xs[k]; }
      }
    }
  }

  /** Without an error, folding `a + b` is folding `a`, then `b`. */
  lemma {:induction false} TryFlatMapConcat<T, U, E>(f: T -> Result<seq<U>, E>, a: seq<T>, b: seq<T>)
    requires TryFlatMap(f, a).Success? && TryFlatMap(f, b).Success?
    ensures TryFlatMap(f, a + b) == Success(TryFlatMap(f, a).value + TryFlatMap(f, b).value)
    decreases |b|
  {
    if b == [] {
      assert a + b == a;
      assert TryFlatMap(f, a).value + TryFlatMap(f, b).value == TryFlatMap(f, a).value;
    } else {
      var b' := b[..|b| - 1];
      assert (a + b)[..|a + b| - 1] == a + b';
      assert (a + b)[|a + b| - 1] == b[|b| - 1];
      assert TryFlatMap(f, b').Success? && f(b[|b| - 1]).Success?;
      TryFlatMapConcat(f, a, b');
      var u := f(b[|b| - 1]).value;
      assert TryFlatMap(f, b).value == TryFlatMap(f, b').value + u;
      var ra, rb' := TryFlatMap(f, a).value, TryFlatMap(f, b').value;
      assert TryFlatMap(f, a + b') == Success(ra + rb');
      assert TryFlatMap(f, a + b) == Success((ra + rb') + u);
      assert (ra + rb') + u == ra + (rb' + u);
    }
  }

  /** Once a prefix raises, the loop stops there: the whole fold has the prefix's error. */
  lemma {:induction false} TryFlatMapStops<T, U, E>(f: T -> Result<seq<U>, E>, xs: seq<T>, n: nat)
    requires n <= |xs|
    requires TryFlatMap(f, xs[..n]).Failure?
    ensures TryFlatMap(f, xs) == TryFlatMap(f, xs[..n])
    decreases |xs| - n
  {
    if n < |xs| {
      assert xs[..n + 1][..n] == xs[..n];
      TryFlatMapStops(f, xs, n + 1);
    } else {
      assert xs[..n] == xs;
    }
  }

  lemma TryFlatMapSingle<T, U, E>(f: T -> Result<seq<U>, E>, x: T)
    ensures TryFlatMap(f, [x]) == match f(x) case Failure(e) => Failure(e) case Success(u) => Success([] + u)
  {
    assert [x][..0] == [];
  }

  /**
   * When each element yields exactly one value, a fold without an error has
   * one value per element, the k-th coming from the k-th element.
   */
  lemma {:induction false} TryFlatMapOnes<T, U, E>(f: T -> Result<seq<U>, E>, xs: seq<T>)
    requires forall k | 0 <= k < |xs| :: f(xs[k]).Success? ==> |f(xs[k]).value| == 1
    requires TryFlatMap(f, xs).Success?
    ensures |TryFlatMap(f, xs).value| == |xs|
    ensures forall k | 0 <= k < |xs| :: f(xs[k]).Success? && [TryFlatMap(f, xs).value[k]] == f(xs[k]).value
  {
    if xs != [] {
      var init := xs[..|xs| - 1];
      assert forall k | 0 <= k < |init| :: init[k] == xs[k];
      TryFlatMapOnes(f, init);
      var us := TryFlatMap(f, xs).value;
      assert us == TryFlatMap(f, init).value + f(xs[|xs| - 1]).value;
      forall k | 0 <= k < |xs| ensures f(xs[k]).Success? && [us[k]] == f(xs[k]).value {
        if k < |init| {
          assert us[k] == TryFlatMap(f, init).value[k];
        }
      }
    }
  }
}
