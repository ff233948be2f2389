/** Facts about sequences shared by the trackers, the stores and the protocols. */
module Sequences {

  /** The last `n` elements, or all of them when there are fewer. */
  function LastN<T>(s: seq<T>, n: nat): (r: seq<T>)
    ensures |r| == if |s| <= n then |s| else n
  {
    if |s| <= n then s else s[|s| - n..]
  }

  /** Trimming on every append keeps exactly the last `n` elements of everything appended. */
  lemma LastNAppend<T>(s: seq<T>, x: T, n: nat)
    requires n > 0
    ensures LastN(LastN(s, n) + [x], n) == LastN(s + [x], n)
  {
    if |s| > n {
      assert (s[|s| - n..] + [x])[1..] == (s + [x])[|s| + 1 - n..];
    } else if |s| == n {
      assert LastN(s, n) == s;
    }
  }

  ghost predicate IsSuffix<T>(t: seq<T>, s: seq<T>) {
    |t| <= |s| && t == s[|s| - |t|..]
  }

  lemma LastNSuffix<T>(s: seq<T>, n: nat)
    ensures IsSuffix(LastN(s, n), s)
  {
  }

  lemma WholeSuffix<T>(t: seq<T>, s: seq<T>)
    requires IsSuffix(t, s)
    ensures t == s <==> |t| == |s|
  {
    assert |t| == |s| ==> s[|s| - |t|..] == s;
  }

  lemma SuffixTransitive<T>(a: seq<T>, b: seq<T>, c: seq<T>)
    requires IsSuffix(a, b) && IsSuffix(b, c)
    ensures IsSuffix(a, c)
  {
    assert b[|b| - |a|..] == c[|c| - |a|..];
  }

  lemma SuffixAppend<T>(t: seq<T>, s: seq<T>, x: T)
    requires IsSuffix(t, s)
    ensures IsSuffix(t + [x], s + [x])
  {
    assert t + [x] == (s + [x])[|s| - |t|..];
  }

  function Filter<T>(s: seq<T>, p: T -> bool): (r: seq<T>)
    ensures |r| <= |s|
  {
    if s == [] then []
    else Filter(s[..|s| - 1], p) + (if p(s[|s| - 1]) then [s[|s| - 1]] else [])
  }

  lemma FilterAppend<T>(s: seq<T>, x: T, p: T -> bool)
    ensures Filter(s + [x], p) == Filter(s, p) + (if p(x) then [x] else [])
  {
    assert (s + [x])[..|s|] == s;
  }

  /** Where the elements of `t` stand in `s`. */
  ghost predicate Places<T>(f: seq<nat>, t: seq<T>, s: seq<T>) {
    && |f| == |t|
    && (forall i :: 0 <= i < |f| ==> f[i] < |s| && t[i] == s[f[i]])
    && (forall i, j :: 0 <= i < j < |f| ==> f[i] < f[j])
  }

  ghost predicate AllOf<T>(f: seq<nat>, s: seq<T>, p: T -> bool) {
    forall k :: k in f <==> 0 <= k < |s| && p(s[k])
  }

  lemma PlacesExtend<T>(f: seq<nat>, t: seq<T>, s: seq<T>, x: T)
    requires Places(f, t, s)
    ensures Places(f, t, s + [x]) && Places(f + [|s|], t + [x], s + [x])
  {
  }

  lemma AllOfExtend<T>(f: seq<nat>, s: seq<T>, x: T, p: T -> bool)
    requires AllOf(f, s, p)
    ensures AllOf(if p(x) then f + [|s|] else f, s + [x], p)
  {
    var g := if p(x) then f + [|s|] else f;
    forall k ensures k in g <==> 0 <= k < |s + [x]| && p((s + [x])[k]) {
      assert k in g <==> k in f || (p(x) && k == |s|);
    }
  }

  /** A filter keeps exactly the elements that pass, each once, in their order. */
  lemma {:induction false} FilterPlaces<T>(s: seq<T>, p: T -> bool) returns (f: seq<nat>)
    ensures Places(f, Filter(s, p), s) && AllOf(f, s, p)
  {
    hide Places, AllOf;
    if s == [] {
      f := [];
      NoPlaces(s, p);
    } else {
      var n := |s| - 1;
      f := FilterPlaces(s[..n], p);
      PlacesExtend(f, Filter(s[..n], p), s[..n], s[n]);
      AllOfExtend(f, s[..n], s[n], p);
      assert s[..n] + [s[n]] == s;
      FilterAppend(s[..n], s[n], p);
      assert !p(s[n]) ==> Filter(s, p) == Filter(s[..n], p);
      if p(s[n]) {
        f := f + [n];
      }
    }
  }

  lemma NoPlaces<T>(s: seq<T>, p: T -> bool)
    requires s == []
    ensures Places([], Filter(s, p), s) && AllOf([], s, p)
  {
  }

  lemma {:induction false} FilterConcat<T>(s: seq<T>, t: seq<T>, p: T -> bool)
    ensures Filter(s + t, p) == Filter(s, p) + Filter(t, p)
  {
    if t == [] {
      assert s + t == s;
    } else {
      var u, x := t[..|t| - 1], t[|t| - 1];
      assert s + t == (s + u) + [x];
      FilterAppend(s + u, x, p);
      FilterConcat(s, u, p);
    }
  }

  /** Once `p` holds it keeps holding. */
  ghost predicate Upward<T>(s: seq<T>, p: T -> bool) {
    forall i, j :: 0 <= i < j < |s| && p(s[i]) ==> p(s[j])
  }

  lemma {:induction false} FilterNone<T>(s: seq<T>, p: T -> bool)
    requires forall i :: 0 <= i < |s| ==> !p(s[i])
    ensures Filter(s, p) == []
  {
    if s != [] {
      FilterNone(s[..|s| - 1], p);
    }
  }

  lemma {:induction false} FilterAll<T>(s: seq<T>, p: T -> bool)
    requires forall i :: 0 <= i < |s| ==> p(s[i])
    ensures Filter(s, p) == s
  {
    if s != [] {
      FilterAll(s[..|s| - 1], p);
    }
  }

  lemma FilterTail<T>(s: seq<T>, p: T -> bool, k: nat, d: nat)
    requires k <= |s| && d <= |s|
    requires forall i :: 0 <= i < k ==> !p(s[i])
    requires forall i :: k <= i < |s| ==> p(s[i])
    ensures Filter(s[d..], p) == if k <= d then s[d..] else s[k..]
  {
    hide Filter;
    if k <= d {
      FilterAll(s[d..], p);
    } else {
      FilterNone(s[d..k], p);
      FilterAll(s[k..], p);
      FilterConcat(s[d..k], s[k..], p);
      assert s[d..] == s[d..k] + s[k..];
    }
  }

  /** Filtering by a test that, once true, stays true drops a prefix and nothing else. */
  lemma FilterUpward<T>(s: seq<T>, p: T -> bool) returns (k: nat)
    requires Upward(s, p)
    ensures k <= |s| && Filter(s, p) == s[k..]
    ensures forall i :: 0 <= i < k ==> !p(s[i])
    ensures forall i :: k <= i < |s| ==> p(s[i])
  {
    hide Filter;
    k := 0;
    while k < |s| && !p(s[k])
      invariant k <= |s| && forall i :: 0 <= i < k ==> !p(s[i])
    {
      k := k + 1;
    }
    FilterTail(s, p, k, 0);
    assert s[0..] == s;
  }

  /** Keeping the last `n` commutes with a test that drops a prefix. */
  lemma FilterLastN<T>(s: seq<T>, p: T -> bool, n: nat)
    requires Upward(s, p)
    ensures Filter(LastN(s, n), p) == LastN(Filter(s, p), n)
  {
    hide Filter, Upward;
    var k := FilterUpward(s, p);
    var d := |s| - |LastN(s, n)|;
    assert LastN(s, n) == s[d..];
    FilterTail(s, p, k, d);
  }

  function Map<T, U>(f: T -> U, s: seq<T>): (r: seq<U>)
    ensures |r| == |s|
    ensures forall i :: 0 <= i < |s| ==> r[i] == f(s[i])
  {
    seq(|s|, i requires 0 <= i < |s| => f(s[i]))
  }

  function Sum<T>(s: seq<T>, f: T -> nat): nat {
    if s == [] then 0 else Sum(s[..|s| - 1], f) + f(s[|s| - 1])
  }

  lemma {:induction false} SumUpdate<T>(s: seq<T>, i: nat, x: T, f: T -> nat)
    requires i < |s|
    ensures Sum(s[i := x], f) == Sum(s, f) - f(s[i]) + f(x)
  {
    var t := s[i := x];
    if i == |s| - 1 {
      assert t[..|s| - 1] == s[..|s| - 1];
    } else {
      assert t[..|s| - 1] == s[..|s| - 1][i := x];
      SumUpdate(s[..|s| - 1], i, x, f);
    }
  }

  lemma {:induction false} SumZero<T>(s: seq<T>, f: T -> nat)
    ensures Sum(s, f) == 0 <==> forall i :: 0 <= i < |s| ==> f(s[i]) == 0
  {
    if s != [] {
      SumZero(s[..|s| - 1], f);
      assert forall i :: 0 <= i < |s| - 1 ==> s[i] == s[..|s| - 1][i];
      if forall i :: 0 <= i < |s| ==> f(s[i]) == 0 {
        assert f(s[|s| - 1]) == 0;
      }
    }
  }

  lemma {:induction false} SumAtLeast<T>(s: seq<T>, i: nat, f: T -> nat)
    requires i < |s|
    ensures Sum(s, f) >= f(s[i])
  {
    if i < |s| - 1 {
      SumAtLeast(s[..|s| - 1], i, f);
    }
  }

  /** Some element of positive weight in a sequence whose total is positive. */
  lemma PositiveElement<T>(s: seq<T>, f: T -> nat) returns (i: nat)
    requires Sum(s, f) > 0
    ensures i < |s| && f(s[i]) > 0
  {
    SumZero(s, f);
    i :| 0 <= i < |s| && f(s[i]) > 0;
  }

  lemma {:induction false} SumConstant<T>(s: seq<T>, f: T -> nat, c: nat)
    requires forall i :: 0 <= i < |s| ==> f(s[i]) == c
    ensures Sum(s, f) == |s| * c
  {
    if s != [] {
      SumConstant(s[..|s| - 1], f, c);
    }
  }

  // ---------- counting ----------

  function Below(n: nat): set<nat> {
    if n == 0 then {} else Below(n - 1) + {n - 1}
  }

  lemma {:induction false} BelowSize(n: nat)
    ensures |Below(n)| == n && forall x :: x in Below(n) <==> 0 <= x < n
  {
    if n > 0 {
      BelowSize(n - 1);
    }
  }

  function Used(f: seq<nat>): set<nat> {
    set x | x in f
  }

  lemma {:induction false} UsedSize(f: seq<nat>)
    requires forall a, b :: 0 <= a < b < |f| ==> f[a] != f[b]
    ensures |Used(f)| == |f|
  {
    if f != [] {
      var n := |f| - 1;
      UsedSize(f[..n]);
      assert f == f[..n] + [f[n]];
      assert f[n] !in f[..n];
      assert Used(f) == Used(f[..n]) + {f[n]};
    }
  }

  lemma {:induction false} SubsetSize<T>(a: set<T>, b: set<T>)
    requires a <= b
    ensures |a| <= |b|
    decreases |a|
  {
    if x :| x in a {
      SubsetSize(a - {x}, b - {x});
    }
  }
}
