/** Keeping the elements of a sequence that satisfy a predicate, in order. */
module SeqFilter {

  function Filter<T>(p: T -> bool, s: seq<T>): (r: seq<T>)
    ensures |r| <= |s|
    ensures forall i :: 0 <= i < |r| ==> p(r[i])
    decreases |s|
  {
    if s == [] then []
    else if p(s[0]) then [s[0]] + Filter(p, s[1..])
    else Filter(p, s[1..])
  }

  lemma {:induction false} FilterConcat<T>(p: T -> bool, a: seq<T>, b: seq<T>)
    ensures Filter(p, a + b) == Filter(p, a) + Filter(p, b)
    decreases |a|
  {
    if a == [] {
      assert a + b == b;
    } else {
      assert (a + b)[1..] == a[1..] + b;
      FilterConcat(p, a[1..], b);
    }
  }

  /** Every element kept comes from the sequence. */
  lemma {:induction false} FilterSubset<T>(p: T -> bool, s: seq<T>, i: nat)
    requires i < |Filter(p, s)|
    ensures Filter(p, s)[i] in s
    decreases |s|
  {
    if !p(s[0]) {
      FilterSubset(p, s[1..], i);
    } else if i > 0 {
      FilterSubset(p, s[1..], i - 1);
    }
  }

  /** Nothing is kept exactly when no element satisfies the predicate. */
  lemma {:induction false} FilterEmpty<T>(p: T -> bool, s: seq<T>)
    ensures Filter(p, s) == [] <==> forall i :: 0 <= i < |s| ==> !p(s[i])
    decreases |s|
  {
    if s != [] {
      FilterEmpty(p, s[1..]);
      if !p(s[0]) {
        forall i | 1 <= i < |s| ensures s[i] == s[1..][i - 1] { }
      }
    }
  }

  /** The first element kept is the first element that satisfies the predicate. */
  lemma {:induction false} FilterFirst<T>(p: T -> bool, s: seq<T>, i: nat)
    requires i < |s| && p(s[i])
    requires forall j :: 0 <= j < i ==> !p(s[j])
    ensures Filter(p, s) != [] && Filter(p, s)[0] == s[i]
    decreases i
  {
    if i > 0 {
      FilterFirst(p, s[1..], i - 1);
    }
  }

  /**
   * Applying `g` element-wise commutes with filtering when `g` does not change
   * whether an element satisfies the predicate.
   */
  lemma {:induction false} FilterPointwise<T>(p: T -> bool, g: T -> T, s: seq<T>, t: seq<T>)
    requires |s| == |t|
    requires forall i :: 0 <= i < |s| ==> t[i] == g(s[i]) && p(t[i]) == p(s[i])
    ensures |Filter(p, t)| == |Filter(p, s)|
    ensures forall i :: 0 <= i < |Filter(p, s)| ==> Filter(p, t)[i] == g(Filter(p, s)[i])
    decreases |s|
  {
    if s != [] {
      FilterPointwise(p, g, s[1..], t[1..]);
    }
  }

  /** Some element of `s` is mapped by `f` to `u`. */
  predicate Has<T, U(==)>(f: T -> U, s: seq<T>, u: U)
    decreases |s|
  {
    s != [] && (f(s[0]) == u || Has(f, s[1..], u))
  }

  lemma {:induction false} HasAppend<T, U>(f: T -> U, s: seq<T>, t: T, u: U)
    ensures Has(f, s + [t], u) <==> Has(f, s, u) || f(t) == u
    decreases |s|
  {
    if s == [] {
      assert [t][1..] == [];
    } else {
      assert (s + [t])[1..] == s[1..] + [t];
      HasAppend(f, s[1..], t, u);
    }
  }

  lemma HasOne<T, U>(f: T -> U, t: T, u: U)
    ensures Has(f, [t], u) <==> f(t) == u
  {
    assert [t][1..] == [];
  }

  lemma {:induction false} HasConcat<T, U>(f: T -> U, a: seq<T>, b: seq<T>, u: U)
    ensures Has(f, a + b, u) <==> Has(f, a, u) || Has(f, b, u)
    decreases |a|
  {
    if a == [] {
      assert a + b == b;
    } else {
      assert (a + b)[1..] == a[1..] + b;
      HasConcat(f, a[1..], b, u);
    }
  }

  /** `Has` is the existential it abbreviates. */
  lemma {:induction false} HasExists<T, U>(f: T -> U, s: seq<T>, u: U)
    ensures Has(f, s, u) <==> exists i :: 0 <= i < |s| && f(s[i]) == u
    decreases |s|
  {
    if s != [] {
      HasExists(f, s[1..], u);
      if Has(f, s[1..], u) {
        var i :| 0 <= i < |s[1..]| && f(s[1..][i]) == u;
        assert f(s[i + 1]) == u;
      }
      if exists i :: 0 <= i < |s| && f(s[i]) == u {
        var i :| 0 <= i < |s| && f(s[i]) == u;
        if i > 0 {
          assert f(s[1..][i - 1]) == u;
        }
      }
    }
  }
}
