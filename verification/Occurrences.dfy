/** How often something occurs in a sequence. */
module Occurrences {

  function Times<T(==)>(s: seq<T>, x: T): nat {
    if s == [] then 0 else Times(s[..|s| - 1], x) + if s[|s| - 1] == x then 1 else 0
  }

  lemma {:induction false} TimesAppend<T>(s: seq<T>, y: T, x: T)
    ensures Times(s + [y], x) == Times(s, x) + if y == x then 1 else 0
  {
    assert (s + [y])[..|s|] == s;
  }

  /** The element at i becomes y. */
  lemma {:induction false} TimesMoved<T>(s: seq<T>, i: nat, y: T, x: T)
    requires i < |s|
    ensures Times(s[i := y], x) + (if s[i] == x then 1 else 0) == Times(s, x) + if y == x then 1 else 0
  {
    var n := |s| - 1;
    if i == n {
      assert s[i := y][..n] == s[..n];
    } else {
      assert s[i := y][..n] == s[..n][i := y];
      TimesMoved(s[..n], i, y, x);
    }
  }

  lemma {:induction false} TimesConcat<T>(a: seq<T>, b: seq<T>, x: T)
    ensures Times(a + b, x) == Times(a, x) + Times(b, x)
    decreases |b|
  {
    if b == [] {
      assert a + b == a;
    } else {
      assert (a + b)[..|a + b| - 1] == a + b[..|b| - 1];
      TimesConcat(a, b[..|b| - 1], x);
    }
  }

  lemma {:induction false} TimesIn<T>(s: seq<T>, x: T)
    ensures Times(s, x) > 0 <==> x in s
  {
    if s != [] { TimesIn(s[..|s| - 1], x); }
  }
}
