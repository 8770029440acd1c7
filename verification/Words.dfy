/** When two words commute. */
module Words {

  function Power<T>(w: seq<T>, n: nat): seq<T> {
    if n == 0 then [] else w + Power(w, n - 1)
  }

  ghost predicate PowersOfOne<T>(a: seq<T>, b: seq<T>, w: seq<T>, m: nat, n: nat) {
    a == Power(w, m) && b == Power(w, n)
  }

  ghost predicate ShareRoot<T(!new)>(a: seq<T>, b: seq<T>) {
    exists w, m, n :: PowersOfOne(a, b, w, m, n)
  }

  lemma {:induction false} PowerSum<T>(w: seq<T>, m: nat, n: nat)
    ensures Power(w, m) + Power(w, n) == Power(w, m + n)
  {
    if m == 0 {
      assert Power(w, 0) + Power(w, n) == Power(w, n);
    } else {
      PowerSum(w, m - 1, n);
      assert w + Power(w, m - 1) + Power(w, n) == w + (Power(w, m - 1) + Power(w, n));
    }
  }

  /** Commuting words are powers of one word: cancel the shorter from the longer and repeat. */
  lemma {:induction false} CommonRoot<T>(a: seq<T>, b: seq<T>) returns (w: seq<T>, m: nat, n: nat)
    requires a + b == b + a
    ensures PowersOfOne(a, b, w, m, n)
    decreases |a| + |b|, |b| < |a|
  {
    if |b| < |a| {
      w, n, m := CommonRoot(b, a);
    } else if a == [] {
      w, m, n := b, 0, 1;
      assert Power(b, 1) == b + Power(b, 0);
    } else {
      var c := Cancel(a, b);
      var k;
      w, m, k := CommonRoot(a, c);
      n := m + k;
      PowerSum(w, m, k);
    }
  }

  /** The longer of two commuting words starts with the shorter, and the rest still commutes with it. */
  lemma Cancel<T>(a: seq<T>, b: seq<T>) returns (c: seq<T>)
    requires a + b == b + a && |a| <= |b|
    ensures b == a + c && a + c == c + a
  {
    c := b[|a|..];
    assert b == (b + a)[..|b|] == (a + b)[..|b|];
    assert b[..|a|] == (a + b)[..|a|] == a;
    assert (a + b)[|a|..] == b;
    assert (b + a)[|a|..] == c + a;
  }

  /** Two words commute exactly when both are powers of one word. */
  lemma CommuteIffShareRoot<T(!new)>(a: seq<T>, b: seq<T>)
    ensures a + b == b + a <==> ShareRoot(a, b)
  {
    if a + b == b + a {
      var w, m, n := CommonRoot(a, b);
    }
    if ShareRoot(a, b) {
      var w, m, n :| PowersOfOne(a, b, w, m, n);
      PowerSum(w, m, n);
      PowerSum(w, n, m);
    }
  }
}
