/** One search from its inputs to the ranked list it displays: the modifier
    list is classified, the two bases are summed, every candidate goes
    through add_result, and the results are sorted by (steps, error). */
module MassMatch {
  import opened Classifier
  import opened Families
  import opened Collector
  import opened Enumerator
  import opened Ranking

  /** The results list after the enumeration, in the order add_result
      appended to it. */
  function Recorded(q: Query, cyclic: seq<real>, linear: seq<real>, raw: seq<Token>): seq<Match> {
    RecordAll(q, AllCandidates(Sum(cyclic), Sum(linear), AddPool(raw), SubPool(raw)))
  }

  /** The whole script with its inputs as parameters: the ranked list is the
      stable sort of the recorded results, so it is ordered by (steps, error),
      holds exactly the recorded entries, keeps the recorded order among
      entries of equal key, and every entry in it fits its family. */
  method Search(cyclic: seq<real>, linear: seq<real>, raw: seq<Token>,
                target: real, tolerance: real, customNames: map<Desc, string>)
    returns (ranked: seq<Match>)
    ensures var q := Query(target, tolerance, customNames);
      ranked == Rank(Recorded(q, cyclic, linear, raw))
    ensures Ranked(ranked)
    ensures var q := Query(target, tolerance, customNames);
      multiset(ranked) == multiset(Recorded(q, cyclic, linear, raw))
    ensures var q := Query(target, tolerance, customNames);
      forall k :: WithKey(ranked, k) == WithKey(Recorded(q, cyclic, linear, raw), k)
    ensures forall m :: m in ranked ==>
      MatchFits(Query(target, tolerance, customNames), Sum(cyclic), Sum(linear), m)
  {
    var add, sub := Classify(raw);
    var sumCyclic := Sum(cyclic);
    var sumLinear := Sum(linear);
    var c := new MatchCollector(Query(target, tolerance, customNames));
    Enumerate(c, sumCyclic, sumLinear, add, sub);
    EmptyPrefix(RecordAll(c.query, AllCandidates(sumCyclic, sumLinear, add, sub)));
    ranked := Rank(c.results);
    RankRanked(c.results);
    RankPermutes(c.results);
    forall k {
      RankStable(c.results, k);
    }
    forall m | m in ranked
      ensures MatchFits(c.query, sumCyclic, sumLinear, m)
    {
      assert m in multiset(ranked);
      MatchShape(c.query, sumCyclic, sumLinear, add, sub, m);
    }
  }

  lemma EmptyPrefix<T>(s: seq<T>)
    ensures [] + s == s
  {
  }

  /** What every recorded entry, and so every ranked one, satisfies: the
      guard of add_result, a step count that is the length of its
      combination and lies in its family's range, a relabelled tag, the value
      its family's formula gives, no substitute pair of equal values, and the
      custom-name suffix of its description. */
  predicate MatchFits(q: Query, sumCyclic: real, sumLinear: real, m: Match) {
    && Guarded(q, m)
    && m.steps == |m.desc.combo| && StepsFit(m.desc.family, m.steps)
    && m.desc.tag != List1 && m.desc.tag != List3
    && (m.desc.family.Substitute? ==> |m.desc.combo| == 2 && m.desc.combo[0] != m.desc.combo[1])
    && m.value == CandidateValue(m.desc.family, BaseSumOf(m.desc.tag, sumCyclic, sumLinear), m.desc.combo)
    && m.alias == AliasOf(q, m.desc)
  }

  lemma RecordedFits(q: Query, cs: seq<Candidate>, sumCyclic: real, sumLinear: real, m: Match)
    requires AllWellFormed(cs, sumCyclic, sumLinear) && m in RecordAll(q, cs)
    ensures MatchFits(q, sumCyclic, sumLinear, m)
  {
    RecordAllMembers(q, cs, m);
    var i :| 0 <= i < |cs| && WithinTolerance(q, cs[i].value) && m == MatchOf(q, cs[i]);
    assert WellFormed(cs[i], sumCyclic, sumLinear);
    MatchOfLabels(q, cs[i]);
  }

  lemma MatchShape(q: Query, sumCyclic: real, sumLinear: real, add: seq<real>, sub: seq<real>, m: Match)
    requires m in RecordAll(q, AllCandidates(sumCyclic, sumLinear, add, sub))
    ensures MatchFits(q, sumCyclic, sumLinear, m)
  {
    AllCandidatesWellFormed(sumCyclic, sumLinear, add, sub);
    RecordedFits(q, AllCandidates(sumCyclic, sumLinear, add, sub), sumCyclic, sumLinear, m);
  }
}
