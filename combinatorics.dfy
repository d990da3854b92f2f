/** Index sequences for combinations drawn from a pool, in the order in which
    Python's itertools.combinations_with_replacement and itertools.combinations
    yield them, with their shape and count laws. */
module Combinatorics {

  /** Every entry of `idx` lies in [lo, n). */
  predicate InRange(idx: seq<nat>, lo: nat, n: nat) {
    forall k :: 0 <= k < |idx| ==> lo <= idx[k] < n
  }

  predicate NonDecreasing(idx: seq<nat>) {
    forall j, k :: 0 <= j < k < |idx| ==> idx[j] <= idx[k]
  }

  predicate StrictlyIncreasing(idx: seq<nat>) {
    forall j, k :: 0 <= j < k < |idx| ==> idx[j] < idx[k]
  }

  predicate Distinct<T(==)>(ss: seq<T>) {
    forall j, k :: 0 <= j < k < |ss| ==> ss[j] != ss[k]
  }

  /** The binomial coefficient, by Pascal's rule. */
  function Binomial(n: nat, k: nat): nat {
    if k == 0 then 1
    else if n == 0 then 0
    else Binomial(n - 1, k - 1) + Binomial(n - 1, k)
  }

  /** Puts `i` in front of every sequence of `ss`. */
  function Prepend(i: nat, ss: seq<seq<nat>>): (ps: seq<seq<nat>>)
    ensures |ps| == |ss|
  {
    if ss == [] then [] else [[i] + ss[0]] + Prepend(i, ss[1..])
  }

  /** The index sequences of length r, non-decreasing, over positions lo..n-1:
      first those that start with lo, then those that skip lo. This is the
      lexicographic order of itertools.combinations_with_replacement. */
  function WithReplacement(lo: nat, n: nat, r: nat): seq<seq<nat>>
    decreases n - lo, r
  {
    if r == 0 then [[]]
    else if n <= lo then []
    else Prepend(lo, WithReplacement(lo, n, r - 1)) + WithReplacement(lo + 1, n, r)
  }

  /** The index sequences of length r, strictly increasing, over positions
      lo..n-1, in the lexicographic order of itertools.combinations. */
  function WithoutReplacement(lo: nat, n: nat, r: nat): seq<seq<nat>>
    decreases n - lo, r
  {
    if r == 0 then [[]]
    else if n <= lo then []
    else Prepend(lo, WithoutReplacement(lo + 1, n, r - 1)) + WithoutReplacement(lo + 1, n, r)
  }

  /** Putting lo in front of a sequence over [lo, n), or over [lo + 1, n),
      keeps it in range and keeps its order. */
  lemma ConsShape(lo: nat, n: nat, s: seq<nat>)
    requires |s| > 0 && s[0] == lo < n
    ensures InRange(s[1..], lo, n) && NonDecreasing(s[1..]) ==> InRange(s, lo, n) && NonDecreasing(s)
    ensures InRange(s[1..], lo + 1, n) && StrictlyIncreasing(s[1..]) ==> InRange(s, lo, n) && StrictlyIncreasing(s)
  {
    var t := s[1..];
    assert forall k :: 1 <= k < |s| ==> s[k] == t[k - 1];
  }

  /** Every index sequence WithReplacement yields has length r, lies in
      [lo, n) and is non-decreasing. */
  lemma {:induction false} WithReplacementShape(lo: nat, n: nat, r: nat, s: seq<nat>)
    requires s in WithReplacement(lo, n, r)
    ensures |s| == r && InRange(s, lo, n) && NonDecreasing(s)
    decreases n - lo, r
  {
    if r > 0 {
      var first := WithReplacement(lo, n, r - 1);
      if s in Prepend(lo, first) {
        PrependMember(lo, first, s);
        WithReplacementShape(lo, n, r - 1, s[1..]);
        ConsShape(lo, n, s);
      } else {
        WithReplacementShape(lo + 1, n, r, s);
      }
    }
  }

  /** Every index sequence WithoutReplacement yields has length r, lies in
      [lo, n) and is strictly increasing. */
  lemma {:induction false} WithoutReplacementShape(lo: nat, n: nat, r: nat, s: seq<nat>)
    requires s in WithoutReplacement(lo, n, r)
    ensures |s| == r && InRange(s, lo, n) && StrictlyIncreasing(s)
    decreases n - lo, r
  {
    if r > 0 {
      var first := WithoutReplacement(lo + 1, n, r - 1);
      if s in Prepend(lo, first) {
        PrependMember(lo, first, s);
        WithoutReplacementShape(lo + 1, n, r - 1, s[1..]);
        ConsShape(lo, n, s);
      } else {
        WithoutReplacementShape(lo + 1, n, r, s);
      }
    }
  }

  lemma {:induction false} PrependAt(i: nat, ss: seq<seq<nat>>)
    ensures forall k :: 0 <= k < |ss| ==> Prepend(i, ss)[k] == [i] + ss[k]
  {
    if ss != [] {
      PrependAt(i, ss[1..]);
      forall k | 1 <= k < |ss| ensures Prepend(i, ss)[k] == [i] + ss[k] {
        assert ss[1..][k - 1] == ss[k];
      }
    }
  }

  lemma {:induction false} PrependMember(i: nat, ss: seq<seq<nat>>, s: seq<nat>)
    ensures s in Prepend(i, ss) <==> |s| > 0 && s[0] == i && s[1..] in ss
  {
    PrependAt(i, ss);
    var p := Prepend(i, ss);
    if s in p {
      var k :| 0 <= k < |p| && p[k] == s;
      assert s[1..] == ss[k];
    }
    if |s| > 0 && s[0] == i && s[1..] in ss {
      var k :| 0 <= k < |ss| && ss[k] == s[1..];
      assert p[k] == s;
    }
  }

  lemma {:induction false} WithReplacementComplete(lo: nat, n: nat, r: nat, s: seq<nat>)
    requires |s| == r && InRange(s, lo, n) && NonDecreasing(s)
    ensures s in WithReplacement(lo, n, r)
    decreases n - lo, r
  {
    if r == 0 {
      assert s == [];
    } else {
      assert lo <= s[0] < n;
      if s[0] == lo {
        WithReplacementComplete(lo, n, r - 1, s[1..]);
        PrependMember(lo, WithReplacement(lo, n, r - 1), s);
      } else {
        assert InRange(s, lo + 1, n) by {
          forall k | 0 <= k < |s| ensures lo + 1 <= s[k] {
            assert k == 0 || s[0] <= s[k];
          }
        }
        WithReplacementComplete(lo + 1, n, r, s);
      }
    }
  }

  lemma {:induction false} WithoutReplacementComplete(lo: nat, n: nat, r: nat, s: seq<nat>)
    requires |s| == r && InRange(s, lo, n) && StrictlyIncreasing(s)
    ensures s in WithoutReplacement(lo, n, r)
    decreases n - lo, r
  {
    if r == 0 {
      assert s == [];
    } else {
      assert lo <= s[0] < n;
      if s[0] == lo {
        assert InRange(s[1..], lo + 1, n) by {
          forall k | 0 <= k < |s| - 1 ensures lo + 1 <= s[1..][k] {
            assert s[0] < s[k + 1];
          }
        }
        WithoutReplacementComplete(lo + 1, n, r - 1, s[1..]);
        PrependMember(lo, WithoutReplacement(lo + 1, n, r - 1), s);
      } else {
        assert InRange(s, lo + 1, n) by {
          forall k | 0 <= k < |s| ensures lo + 1 <= s[k] {
            assert k == 0 || s[0] < s[k];
          }
        }
        WithoutReplacementComplete(lo + 1, n, r, s);
      }
    }
  }

  /** The combinations with replacement of r out of n positions are exactly
      the non-decreasing index sequences of length r. */
  lemma WithReplacementMembers(n: nat, r: nat, s: seq<nat>)
    ensures s in WithReplacement(0, n, r) <==> |s| == r && InRange(s, 0, n) && NonDecreasing(s)
  {
    if s in WithReplacement(0, n, r) {
      WithReplacementShape(0, n, r, s);
    }
    if |s| == r && InRange(s, 0, n) && NonDecreasing(s) {
      WithReplacementComplete(0, n, r, s);
    }
  }

  /** The combinations without replacement of r out of n positions are exactly
      the strictly increasing index sequences of length r. */
  lemma WithoutReplacementMembers(n: nat, r: nat, s: seq<nat>)
    ensures s in WithoutReplacement(0, n, r) <==> |s| == r && InRange(s, 0, n) && StrictlyIncreasing(s)
  {
    if s in WithoutReplacement(0, n, r) {
      WithoutReplacementShape(0, n, r, s);
    }
    if |s| == r && InRange(s, 0, n) && StrictlyIncreasing(s) {
      WithoutReplacementComplete(0, n, r, s);
    }
  }

  lemma {:induction false} BinomialBeyond(n: nat, k: nat)
    requires n < k
    ensures Binomial(n, k) == 0
  {
    if n > 0 {
      BinomialBeyond(n - 1, k - 1);
      BinomialBeyond(n - 1, k);
    }
  }

  /** There are C(m + r - 1, r) combinations with replacement of r out of m
      positions. */
  lemma {:induction false} WithReplacementCount(lo: nat, n: nat, r: nat)
    requires lo <= n
    ensures |WithReplacement(lo, n, r)| == if r == 0 then 1 else Binomial(n - lo + r - 1, r)
    decreases n - lo, r
  {
    if r > 0 {
      if n == lo {
        BinomialBeyond(r - 1, r);
      } else {
        WithReplacementCount(lo, n, r - 1);
        WithReplacementCount(lo + 1, n, r);
      }
    }
  }

  /** There are C(m, r) combinations without replacement of r out of m
      positions. */
  lemma {:induction false} WithoutReplacementCount(lo: nat, n: nat, r: nat)
    requires lo <= n
    ensures |WithoutReplacement(lo, n, r)| == Binomial(n - lo, r)
    decreases n - lo, r
  {
    if r > 0 && lo < n {
      WithoutReplacementCount(lo + 1, n, r - 1);
      WithoutReplacementCount(lo + 1, n, r);
    }
  }

  lemma {:induction false} PrependDistinct(i: nat, ss: seq<seq<nat>>)
    requires Distinct(ss)
    ensures Distinct(Prepend(i, ss))
  {
    PrependAt(i, ss);
    var p := Prepend(i, ss);
    forall j, k | 0 <= j < k < |p| ensures p[j] != p[k] {
      assert p[j][1..] == ss[j] && p[k][1..] == ss[k];
    }
  }

  lemma {:induction false} DistinctConcat(a: seq<seq<nat>>, b: seq<seq<nat>>)
    requires Distinct(a) && Distinct(b)
    requires forall j, k :: 0 <= j < |a| && 0 <= k < |b| ==> a[j] != b[k]
    ensures Distinct(a + b)
  {
    var c := a + b;
    forall j, k | 0 <= j < k < |c| ensures c[j] != c[k] {
      if k < |a| {
        assert c[j] == a[j] && c[k] == a[k];
      } else if j < |a| {
        assert c[j] == a[j] && c[k] == b[k - |a|];
      } else {
        assert c[j] == b[j - |a|] && c[k] == b[k - |a|];
      }
    }
  }

  /** No combination with replacement is produced twice. */
  lemma {:induction false} WithReplacementDistinct(lo: nat, n: nat, r: nat)
    ensures Distinct(WithReplacement(lo, n, r))
    decreases n - lo, r
  {
    if r > 0 && lo < n {
      var first := WithReplacement(lo, n, r - 1);
      var rest := WithReplacement(lo + 1, n, r);
      WithReplacementDistinct(lo, n, r - 1);
      WithReplacementDistinct(lo + 1, n, r);
      PrependDistinct(lo, first);
      PrependAt(lo, first);
      var p := Prepend(lo, first);
      forall j, k | 0 <= j < |p| && 0 <= k < |rest| ensures p[j] != rest[k] {
        assert rest[k] in rest;
        WithReplacementShape(lo + 1, n, r, rest[k]);
        assert p[j][0] == lo && rest[k][0] >= lo + 1;
      }
      DistinctConcat(p, rest);
    }
  }

  /** No combination without replacement is produced twice. */
  lemma {:induction false} WithoutReplacementDistinct(lo: nat, n: nat, r: nat)
    ensures Distinct(WithoutReplacement(lo, n, r))
    decreases n - lo, r
  {
    if r > 0 && lo < n {
      var first := WithoutReplacement(lo + 1, n, r - 1);
      var rest := WithoutReplacement(lo + 1, n, r);
      WithoutReplacementDistinct(lo + 1, n, r - 1);
      WithoutReplacementDistinct(lo + 1, n, r);
      PrependDistinct(lo, first);
      PrependAt(lo, first);
      var p := Prepend(lo, first);
      forall j, k | 0 <= j < |p| && 0 <= k < |rest| ensures p[j] != rest[k] {
        assert rest[k] in rest;
        WithoutReplacementShape(lo + 1, n, r, rest[k]);
        assert p[j][0] == lo && rest[k][0] >= lo + 1;
      }
      DistinctConcat(p, rest);
    }
  }
}
