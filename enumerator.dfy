/** The enumeration loops: each evaluates one family of candidates and hands
    every candidate to add_result, in the order the source does. Each method
    is proved against the candidate sequence of Families that it walks. */
module Enumerator {
  import opened Combinatorics
  import opened Families
  import opened Collector

  // ---------------------------------------------------------------------
  // One more step of each loop

  lemma TakeSnoc<T>(s: seq<T>, k: nat)
    requires k < |s|
    ensures s[..k + 1] == s[..k] + [s[k]]
  {
  }

  lemma LayersSnoc(f: nat -> seq<Candidate>, lo: nat, r: nat)
    requires lo <= r
    ensures Layers(f, lo, r + 1) == Layers(f, lo, r) + f(r)
  {
  }

  lemma LayersStep(q: Query, start: seq<Match>, f: nat -> seq<Candidate>, lo: nat, r: nat)
    requires lo <= r
    ensures start + RecordAll(q, Layers(f, lo, r)) + RecordAll(q, f(r))
      == start + RecordAll(q, Layers(f, lo, r + 1))
  {
    LayersSnoc(f, lo, r);
    RecordedConcat(q, start, Layers(f, lo, r), f(r));
  }

  lemma LayersAdvance(q: Query, start: seq<Match>, before: seq<Match>, after: seq<Match>, f: nat -> seq<Candidate>, lo: nat, r: nat)
    requires lo <= r
    requires before == start + RecordAll(q, Layers(f, lo, r))
    requires after == before + RecordAll(q, f(r))
    ensures after == start + RecordAll(q, Layers(f, lo, r + 1))
  {
    LayersStep(q, start, f, lo, r);
  }

  lemma TiersAdvance(q: Query, start: seq<Match>, before: seq<Match>, after: seq<Match>, fam: Family, tag: Tag, baseSum: real, pool: seq<real>, lo: nat, r: nat)
    requires DrawsCombinations(fam) && lo <= r
    requires before == start + RecordAll(q, Tiers(fam, tag, baseSum, pool, lo, r))
    requires after == before + RecordAll(q, Tier(fam, tag, baseSum, pool, r))
    ensures after == start + RecordAll(q, Tiers(fam, tag, baseSum, pool, lo, r + 1))
  {
    LayersAdvance(q, start, before, after, TierBySize(fam, tag, baseSum, pool), lo, r);
  }

  lemma ComboFamiliesSnoc(fam: Family, bases: seq<Base>, b: nat, pool: seq<real>)
    requires DrawsCombinations(fam) && b < |bases|
    ensures ComboFamilies(fam, bases[..b + 1], pool)
      == ComboFamilies(fam, bases[..b], pool) + Tiers(fam, bases[b].name, bases[b].sum, pool, 1, 4)
  {
    assert bases[..b + 1][..b] == bases[..b];
  }

  lemma RowSnoc(tag: Tag, baseSum: real, s: real, add: seq<real>, j: nat)
    requires j < |add|
    ensures SubstituteRow(tag, baseSum, s, add[..j + 1])
      == SubstituteRow(tag, baseSum, s, add[..j]) + Swaps(tag, baseSum, s, add[j])
  {
    assert add[..j + 1][..j] == add[..j];
  }

  lemma RowAdvance(q: Query, start: seq<Match>, before: seq<Match>, after: seq<Match>,
                   tag: Tag, baseSum: real, s: real, add: seq<real>, j: nat)
    requires j < |add|
    requires before == start + RecordAll(q, SubstituteRow(tag, baseSum, s, add[..j]))
    requires after == before + RecordAll(q, Swaps(tag, baseSum, s, add[j]))
    ensures after == start + RecordAll(q, SubstituteRow(tag, baseSum, s, add[..j + 1]))
  {
    RowSnoc(tag, baseSum, s, add, j);
    RecordedConcat(q, start, SubstituteRow(tag, baseSum, s, add[..j]), Swaps(tag, baseSum, s, add[j]));
  }

  lemma BlockSnoc(tag: Tag, baseSum: real, sub: seq<real>, add: seq<real>, i: nat)
    requires i < |sub|
    ensures SubstituteBlock(tag, baseSum, sub[..i + 1], add)
      == SubstituteBlock(tag, baseSum, sub[..i], add) + SubstituteRow(tag, baseSum, sub[i], add)
  {
    assert sub[..i + 1][..i] == sub[..i];
  }

  lemma SubstituteFamiliesSnoc(bases: seq<Base>, b: nat, sub: seq<real>, add: seq<real>)
    requires b < |bases|
    ensures SubstituteFamilies(bases[..b + 1], sub, add)
      == SubstituteFamilies(bases[..b], sub, add) + SubstituteBlock(bases[b].name, bases[b].sum, sub, add)
  {
    assert bases[..b + 1][..b] == bases[..b];
  }

  // ---------------------------------------------------------------------
  // The loops

  /** The body of the combination loops: the value of one combination (the
      base plus, or minus, its sum; for the modifier-only family its sum
      alone) handed to add_result with the combination as its steps. */
  method RecordCombo(c: MatchCollector, fam: Family, tag: Tag, baseSum: real, pool: seq<real>, idx: seq<nat>)
    requires c.Valid() && DrawsCombinations(fam) && InRange(idx, 0, |pool|)
    modifies c
    ensures c.Valid()
    ensures c.results == old(c.results) + Record(c.query, ComboCandidate(fam, tag, baseSum, pool, idx))
  {
    var combo := Pick(pool, idx);
    var value := if fam.Additive? then baseSum + Sum(combo)
                 else if fam.Subtractive? then baseSum - Sum(combo)
                 else Sum(combo);
    c.AddResult(Desc(fam, tag, combo), value, combo);
  }

  /** `for combo in <combinations of pool, r>`, with replacement for the
      additive and modifier-only families and without for the subtractive one. */
  method RecordTier(c: MatchCollector, fam: Family, tag: Tag, baseSum: real, pool: seq<real>, r: nat)
    requires c.Valid() && DrawsCombinations(fam)
    modifies c
    ensures c.Valid()
    ensures c.results == old(c.results) + RecordAll(c.query, Tier(fam, tag, baseSum, pool, r))
  {
    var combos := Indices(fam, |pool|, r);
    ghost var tier := Tier(fam, tag, baseSum, pool, r);
    var k := 0;
    while k < |combos|
      invariant k <= |combos|
      invariant c.Valid()
      invariant c.results == old(c.results) + RecordAll(c.query, tier[..k])
    {
      TierSound(fam, tag, baseSum, pool, r, k);
      RecordCombo(c, fam, tag, baseSum, pool, combos[k]);
      TakeSnoc(tier, k);
      RecordedSnoc(c.query, old(c.results), tier[..k], tier[k]);
      k := k + 1;
    }
    assert tier[..|combos|] == tier;
  }

  /** `for r in range(lo, hi)` around RecordTier. */
  method RecordTiers(c: MatchCollector, fam: Family, tag: Tag, baseSum: real, pool: seq<real>, lo: nat, hi: nat)
    requires c.Valid() && DrawsCombinations(fam) && lo <= hi
    modifies c
    ensures c.Valid()
    ensures c.results == old(c.results) + RecordAll(c.query, Tiers(fam, tag, baseSum, pool, lo, hi))
  {
    var r := lo;
    while r < hi
      invariant lo <= r <= hi
      invariant c.Valid()
      invariant c.results == old(c.results) + RecordAll(c.query, Tiers(fam, tag, baseSum, pool, lo, r))
    {
      ghost var before := c.results;
      RecordTier(c, fam, tag, baseSum, pool, r);
      TiersAdvance(c.query, old(c.results), before, c.results, fam, tag, baseSum, pool, lo, r);
      r := r + 1;
    }
  }

  /** The additive or subtractive family: the loop over the two bases, each
      with the sizes 1 to 3. */
  method RecordComboFamilies(c: MatchCollector, fam: Family, bases: seq<Base>, pool: seq<real>)
    requires c.Valid() && (fam.Additive? || fam.Subtractive?)
    modifies c
    ensures c.Valid()
    ensures c.results == old(c.results) + RecordAll(c.query, ComboFamilies(fam, bases, pool))
  {
    var b := 0;
    while b < |bases|
      invariant b <= |bases|
      invariant c.Valid()
      invariant c.results == old(c.results) + RecordAll(c.query, ComboFamilies(fam, bases[..b], pool))
    {
      ghost var done := ComboFamilies(fam, bases[..b], pool);
      RecordTiers(c, fam, bases[b].name, bases[b].sum, pool, 1, 4);
      ComboFamiliesSnoc(fam, bases, b, pool);
      RecordedConcat(c.query, old(c.results), done, Tiers(fam, bases[b].name, bases[b].sum, pool, 1, 4));
      b := b + 1;
    }
    assert bases[..|bases|] == bases;
  }

  /** `for add in list2_add`, skipping an addition equal to the removed value. */
  method RecordRow(c: MatchCollector, tag: Tag, baseSum: real, s: real, add: seq<real>)
    requires c.Valid()
    modifies c
    ensures c.Valid()
    ensures c.results == old(c.results) + RecordAll(c.query, SubstituteRow(tag, baseSum, s, add))
  {
    var j := 0;
    while j < |add|
      invariant j <= |add|
      invariant c.Valid()
      invariant c.results == old(c.results) + RecordAll(c.query, SubstituteRow(tag, baseSum, s, add[..j]))
    {
      ghost var before := c.results;
      RecordSwap(c, tag, baseSum, s, add[j]);
      RowAdvance(c.query, old(c.results), before, c.results, tag, baseSum, s, add, j);
      j := j + 1;
    }
    assert add[..|add|] == add;
  }

  /** One pass of the inner substitute loop: nothing when the addition equals
      the removed value (the source's `continue`), otherwise add_result for
      the pair. */
  method RecordSwap(c: MatchCollector, tag: Tag, baseSum: real, s: real, a: real)
    requires c.Valid()
    modifies c
    ensures c.Valid()
    ensures c.results == old(c.results) + RecordAll(c.query, Swaps(tag, baseSum, s, a))
  {
    if s != a {
      c.AddResult(Desc(Substitute, tag, [s, a]), baseSum - s + a, [s, a]);
      assert [SubstituteCandidate(tag, baseSum, s, a)][..0] == [];
    }
  }


  /** `for sub in list2_sub` around RecordRow. */
  method RecordBlock(c: MatchCollector, tag: Tag, baseSum: real, sub: seq<real>, add: seq<real>)
    requires c.Valid()
    modifies c
    ensures c.Valid()
    ensures c.results == old(c.results) + RecordAll(c.query, SubstituteBlock(tag, baseSum, sub, add))
  {
    var i := 0;
    while i < |sub|
      invariant i <= |sub|
      invariant c.Valid()
      invariant c.results == old(c.results) + RecordAll(c.query, SubstituteBlock(tag, baseSum, sub[..i], add))
    {
      ghost var done := SubstituteBlock(tag, baseSum, sub[..i], add);
      RecordRow(c, tag, baseSum, sub[i], add);
      BlockSnoc(tag, baseSum, sub, add, i);
      RecordedConcat(c.query, old(c.results), done, SubstituteRow(tag, baseSum, sub[i], add));
      i := i + 1;
    }
    assert sub[..|sub|] == sub;
  }

  /** The substitute family: the loop over the two bases around RecordBlock. */
  method RecordSubstitutes(c: MatchCollector, bases: seq<Base>, sub: seq<real>, add: seq<real>)
    requires c.Valid()
    modifies c
    ensures c.Valid()
    ensures c.results == old(c.results) + RecordAll(c.query, SubstituteFamilies(bases, sub, add))
  {
    var b := 0;
    while b < |bases|
      invariant b <= |bases|
      invariant c.Valid()
      invariant c.results == old(c.results) + RecordAll(c.query, SubstituteFamilies(bases[..b], sub, add))
    {
      ghost var done := SubstituteFamilies(bases[..b], sub, add);
      RecordBlock(c, bases[b].name, bases[b].sum, sub, add);
      SubstituteFamiliesSnoc(bases, b, sub, add);
      RecordedConcat(c.query, old(c.results), done, SubstituteBlock(bases[b].name, bases[b].sum, sub, add));
      b := b + 1;
    }
    assert bases[..|bases|] == bases;
  }

  /** The whole enumeration: each base alone, then the additive, subtractive,
      substitute and modifier-only families, in that order. */
  method Enumerate(c: MatchCollector, sumCyclic: real, sumLinear: real, add: seq<real>, sub: seq<real>)
    requires c.Valid()
    modifies c
    ensures c.Valid()
    ensures c.results == old(c.results) + RecordAll(c.query, AllCandidates(sumCyclic, sumLinear, add, sub))
  {
    ghost var q := c.query;
    ghost var start := c.results;
    c.AddResult(Desc(BaseOnly, Cyclic, []), sumCyclic, []);
    c.AddResult(Desc(BaseOnly, Linear, []), sumLinear, []);
    ghost var base := BaseOnlyCandidates(sumCyclic, sumLinear);
    BaseOnlyRecorded(q, start, sumCyclic, sumLinear);

    var bases := [Base(List1, sumCyclic), Base(List3, sumLinear)];
    ghost var adds := ComboFamilies(Additive, bases, add);
    RecordComboFamilies(c, Additive, bases, add);
    RecordedConcat(q, start, base, adds);

    ghost var subs := ComboFamilies(Subtractive, bases, sub);
    RecordComboFamilies(c, Subtractive, bases, sub);
    RecordedConcat(q, start, base + adds, subs);

    ghost var swaps := SubstituteFamilies(bases, sub, add);
    RecordSubstitutes(c, bases, sub, add);
    RecordedConcat(q, start, base + adds + subs, swaps);

    ghost var mods := Tiers(ModifierOnly, List2, 0.0, ModifierPool(add, sub), 2, 6);
    RecordModifierOnly(c, add, sub);
    RecordedConcat(q, start, base + adds + subs + swaps, mods);
  }

  /** The modifier-only family: the sizes 2 to 5 over the additive pool
      followed by the negated subtractive pool. */
  method RecordModifierOnly(c: MatchCollector, add: seq<real>, sub: seq<real>)
    requires c.Valid()
    modifies c
    ensures c.Valid()
    ensures c.results == old(c.results) + RecordAll(c.query, Tiers(ModifierOnly, List2, 0.0, ModifierPool(add, sub), 2, 6))
  {
    var pool := add + seq(|sub|, j requires 0 <= j < |sub| => -sub[j]);
    assert pool == ModifierPool(add, sub);
    RecordTiers(c, ModifierOnly, List2, 0.0, pool, 2, 6);
  }

  /** The two base-only calls of add_result record the base-only candidates. */
  lemma BaseOnlyRecorded(q: Query, start: seq<Match>, sumCyclic: real, sumLinear: real)
    ensures var base := BaseOnlyCandidates(sumCyclic, sumLinear);
      start + Record(q, base[0]) + Record(q, base[1]) == start + RecordAll(q, base)
  {
    var base := BaseOnlyCandidates(sumCyclic, sumLinear);
    assert base[..1] == [base[0]] && [base[0]][..0] == [];
    assert RecordAll(q, [base[0]]) == Record(q, base[0]);
  }
}
