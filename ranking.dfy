/** The final ranking: `sorted(results, key=lambda x: (x[0], x[1]))`, a
    stable sort by step count and then error. Python's sort is stable, so it
    is modelled by a stable insertion sort and the three facts that pin the
    output down: it is ordered by the key, it is a permutation of the input,
    and the entries that share a key keep their input order. */
module Ranking {
  import opened Collector

  /** The key order: fewer steps first, then smaller error. */
  predicate KeyLe(a: Match, b: Match) {
    a.steps < b.steps || (a.steps == b.steps && a.error <= b.error)
  }

  predicate SameKey(a: Match, b: Match) {
    a.steps == b.steps && a.error == b.error
  }

  /** Ascending by (steps, error). */
  predicate Ranked(s: seq<Match>) {
    forall i, j :: 0 <= i < j < |s| ==> KeyLe(s[i], s[j])
  }

  /** Puts `m` in front of the first entry whose key is not smaller. */
  function Insert(m: Match, t: seq<Match>): seq<Match> {
    if t == [] || KeyLe(m, t[0]) then [m] + t else [t[0]] + Insert(m, t[1..])
  }

  /** The sorted list: each entry is inserted in front of the later entries
      with an equal key, which is what keeps the sort stable. */
  function Rank(s: seq<Match>): seq<Match> {
    if s == [] then [] else Insert(s[0], Rank(s[1..]))
  }

  /** The entries of `s` whose key equals that of `k`, in order. */
  function WithKey(s: seq<Match>, k: Match): seq<Match> {
    if s == [] then []
    else if SameKey(s[0], k) then [s[0]] + WithKey(s[1..], k)
    else WithKey(s[1..], k)
  }

  // ---------------------------------------------------------------------
  // Insertion

  lemma {:induction false} InsertPermutes(m: Match, t: seq<Match>)
    ensures multiset(Insert(m, t)) == multiset(t) + multiset{m}
  {
    if t != [] && !KeyLe(m, t[0]) {
      InsertPermutes(m, t[1..]);
      assert t == [t[0]] + t[1..];
    }
  }

  lemma InsertMember(m: Match, t: seq<Match>, x: Match)
    requires x in Insert(m, t)
    ensures x == m || x in t
  {
    InsertPermutes(m, t);
    assert x in multiset(Insert(m, t));
  }

  lemma {:induction false} InsertRanked(m: Match, t: seq<Match>)
    requires Ranked(t)
    ensures Ranked(Insert(m, t))
  {
    if t == [] || KeyLe(m, t[0]) {
      var u := [m] + t;
      forall i, j | 0 <= i < j < |u| ensures KeyLe(u[i], u[j]) {
        if i > 0 {
          assert u[i] == t[i - 1] && u[j] == t[j - 1];
        } else {
          assert u[j] == t[j - 1];
          assert KeyLe(t[0], t[j - 1]) || j == 1;
        }
      }
    } else {
      var rest := Insert(m, t[1..]);
      InsertRanked(m, t[1..]);
      var u := [t[0]] + rest;
      forall i, j | 0 <= i < j < |u| ensures KeyLe(u[i], u[j]) {
        if i > 0 {
          assert u[i] == rest[i - 1] && u[j] == rest[j - 1];
        } else {
          assert rest[j - 1] in rest;
          InsertMember(m, t[1..], rest[j - 1]);
          if rest[j - 1] != m {
            var k :| 0 <= k < |t[1..]| && t[1..][k] == rest[j - 1];
            assert t[k + 1] == rest[j - 1];
          }
        }
      }
    }
  }

  /** Inserting `m` puts it in front of every entry of equal key, as if it
      had been put in front of the whole list. */
  lemma {:induction false} InsertWithKey(m: Match, t: seq<Match>, k: Match)
    ensures WithKey(Insert(m, t), k) == WithKey([m] + t, k)
  {
    assert ([m] + t)[1..] == t;
    if t != [] && !KeyLe(m, t[0]) {
      InsertWithKey(m, t[1..], k);
      assert ([t[0]] + Insert(m, t[1..]))[1..] == Insert(m, t[1..]);
      assert ([m] + t[1..])[1..] == t[1..];
      assert !(SameKey(m, k) && SameKey(t[0], k));
    }
  }

  // ---------------------------------------------------------------------
  // The sort

  /** The ranked list is ordered by (steps, error). */
  lemma {:induction false} RankRanked(s: seq<Match>)
    ensures Ranked(Rank(s))
  {
    if s != [] {
      RankRanked(s[1..]);
      InsertRanked(s[0], Rank(s[1..]));
    }
  }

  /** The ranked list holds the same entries, each as often, as the input. */
  lemma {:induction false} RankPermutes(s: seq<Match>)
    ensures multiset(Rank(s)) == multiset(s)
  {
    if s != [] {
      RankPermutes(s[1..]);
      InsertPermutes(s[0], Rank(s[1..]));
      assert s == [s[0]] + s[1..];
    }
  }

  /** Stability: the entries of any one key appear in the ranked list in the
      order in which they were recorded. */
  lemma {:induction false} RankStable(s: seq<Match>, k: Match)
    ensures WithKey(Rank(s), k) == WithKey(s, k)
  {
    if s != [] {
      RankStable(s[1..], k);
      InsertWithKey(s[0], Rank(s[1..]), k);
      assert ([s[0]] + Rank(s[1..]))[1..] == Rank(s[1..]);
    }
  }

  // ---------------------------------------------------------------------
  // Uniqueness: the three facts above pin the output down, so any stable
  // sort by the same key (Python's included) returns Rank(s).

  lemma WithKeyMember(s: seq<Match>, k: Match, x: Match)
    ensures x in WithKey(s, k) <==> x in s && SameKey(x, k)
  {
    if s != [] {
      WithKeyMember(s[1..], k, x);
      assert s == [s[0]] + s[1..];
    }
  }

  lemma {:induction false} RankedUnique(t: seq<Match>, u: seq<Match>)
    requires Ranked(t) && Ranked(u)
    requires forall k :: WithKey(t, k) == WithKey(u, k)
    ensures t == u
    decreases |t|
  {
    if t == [] || u == [] {
      SameEntries(t, u);
    } else {
      HeadsAgree(t, u);
      forall k ensures WithKey(t[1..], k) == WithKey(u[1..], k) {
        TailsAgree(t, u, k);
      }
      RankedTail(t);
      RankedTail(u);
      RankedUnique(t[1..], u[1..]);
      assert t == [t[0]] + t[1..] && u == [u[0]] + u[1..];
    }
  }

  /** Two lists with the same entries of every key are both empty or both not. */
  lemma SameEntries(t: seq<Match>, u: seq<Match>)
    requires forall k :: WithKey(t, k) == WithKey(u, k)
    requires t == [] || u == []
    ensures t == [] && u == []
  {
    if t != [] {
      WithKeyMember(t, t[0], t[0]);
      WithKeyMember(u, t[0], t[0]);
    } else if u != [] {
      WithKeyMember(t, u[0], u[0]);
      WithKeyMember(u, u[0], u[0]);
    }
  }

  /** The heads of two ranked lists with the same entries of every key are
      the same entry. */
  lemma HeadsAgree(t: seq<Match>, u: seq<Match>)
    requires Ranked(t) && Ranked(u) && t != [] && u != []
    requires forall k :: WithKey(t, k) == WithKey(u, k)
    ensures t[0] == u[0]
  {
    WithKeyMember(t, u[0], u[0]);
    WithKeyMember(u, u[0], u[0]);
    WithKeyMember(t, t[0], t[0]);
    WithKeyMember(u, t[0], t[0]);
    assert WithKey(t, u[0]) == WithKey(u, u[0]) && WithKey(t, t[0]) == WithKey(u, t[0]);
    var i :| 0 <= i < |t| && t[i] == u[0];
    var j :| 0 <= j < |u| && u[j] == t[0];
    assert KeyLe(t[0], t[i]) || i == 0;
    assert KeyLe(u[0], u[j]) || j == 0;
    assert SameKey(t[0], u[0]);
    assert WithKey(t, t[0])[0] == t[0] && WithKey(u, t[0])[0] == u[0];
  }

  lemma TailsAgree(t: seq<Match>, u: seq<Match>, k: Match)
    requires t != [] && u != [] && t[0] == u[0]
    requires WithKey(t, k) == WithKey(u, k)
    ensures WithKey(t[1..], k) == WithKey(u[1..], k)
  {
    if SameKey(t[0], k) {
      assert WithKey(t, k)[1..] == WithKey(t[1..], k);
      assert WithKey(u, k)[1..] == WithKey(u[1..], k);
    }
  }

  lemma RankedTail(s: seq<Match>)
    requires Ranked(s) && s != []
    ensures Ranked(s[1..])
  {
    forall i, j | 0 <= i < j < |s[1..]| ensures KeyLe(s[1..][i], s[1..][j]) {
      assert s[1..][i] == s[i + 1] && s[1..][j] == s[j + 1];
    }
  }

  /** Any list ordered by (steps, error) that keeps the input order within
      each key is the ranked list. */
  lemma RankUnique(s: seq<Match>, t: seq<Match>)
    requires Ranked(t)
    requires forall k :: WithKey(t, k) == WithKey(s, k)
    ensures t == Rank(s)
  {
    RankRanked(s);
    forall k ensures WithKey(t, k) == WithKey(Rank(s), k) {
      RankStable(s, k);
    }
    RankedUnique(t, Rank(s));
  }
}
