/** The five candidate families of the combination search, as the sequences of
    candidates the enumeration loops produce, in the order they produce them. */
module Families {
  import opened Combinatorics

  /** The tag token of a description: the legacy list names List1 (cyclic
      base), List3 (linear base) and List2 (modifiers), and the semantic names
      Cyclic and Linear. */
  datatype Tag = List1 | List3 | List2 | Cyclic | Linear

  datatype Family = BaseOnly | Additive | Subtractive | Substitute | ModifierOnly

  /** A description, kept structured: "List1 + (a, b)" is
      Desc(Additive, List1, [a, b]), "List1 - (s,) + (a,)" is
      Desc(Substitute, List1, [s, a]), "List2 only (a, b)" is
      Desc(ModifierOnly, List2, [a, b]) and "Cyclic only" is
      Desc(BaseOnly, Cyclic, []). */
  datatype Desc = Desc(family: Family, tag: Tag, combo: seq<real>)

  /** The three arguments of one call of add_result: the description, the value
      and the list of drawn elements whose length is the step count. */
  datatype Candidate = Candidate(desc: Desc, value: real, drawn: seq<real>)

  /** One entry of the list of bases the loops run over. */
  datatype Base = Base(name: Tag, sum: real)

  /** Python's sum over a list of masses. */
  function Sum(xs: seq<real>): real {
    if xs == [] then 0.0 else Sum(xs[..|xs| - 1]) + xs[|xs| - 1]
  }

  /** The families whose candidates are combinations of one pool. */
  predicate DrawsCombinations(fam: Family) {
    fam.Additive? || fam.Subtractive? || fam.ModifierOnly?
  }

  /** The shape of an index sequence of size r over n pool positions: drawn
      without replacement (strictly increasing) for the subtractive family,
      with replacement (non-decreasing) for the others. */
  predicate Shape(fam: Family, n: nat, r: nat, idx: seq<nat>) {
    && |idx| == r
    && InRange(idx, 0, n)
    && (if fam.Subtractive? then StrictlyIncreasing(idx) else NonDecreasing(idx))
  }

  /** The index sequences of size r the family draws, in itertools order. */
  function Indices(fam: Family, n: nat, r: nat): seq<seq<nat>> {
    if fam.Subtractive? then WithoutReplacement(0, n, r) else WithReplacement(0, n, r)
  }

  lemma IndicesShape(fam: Family, n: nat, r: nat)
    ensures forall k :: 0 <= k < |Indices(fam, n, r)| ==> Shape(fam, n, r, Indices(fam, n, r)[k])
  {
    var ix := Indices(fam, n, r);
    forall k | 0 <= k < |ix| ensures Shape(fam, n, r, ix[k]) {
      assert ix[k] in ix;
      if fam.Subtractive? {
        WithoutReplacementShape(0, n, r, ix[k]);
      } else {
        WithReplacementShape(0, n, r, ix[k]);
      }
    }
  }

  /** The pool elements at the positions `idx`, in that order. */
  function Pick(pool: seq<real>, idx: seq<nat>): seq<real>
    requires InRange(idx, 0, |pool|)
  {
    seq(|idx|, k requires 0 <= k < |idx| => pool[idx[k]])
  }

  /** The value a candidate of family `fam` drawing `combo` has. */
  function CandidateValue(fam: Family, baseSum: real, combo: seq<real>): real
    requires fam.Substitute? ==> |combo| == 2
  {
    match fam
    case BaseOnly => baseSum
    case Additive => baseSum + Sum(combo)
    case Subtractive => baseSum - Sum(combo)
    case Substitute => baseSum - combo[0] + combo[1]
    case ModifierOnly => Sum(combo)
  }

  function ComboCandidate(fam: Family, tag: Tag, baseSum: real, pool: seq<real>, idx: seq<nat>): Candidate
    requires DrawsCombinations(fam) && InRange(idx, 0, |pool|)
  {
    var combo := Pick(pool, idx);
    Candidate(Desc(fam, tag, combo), CandidateValue(fam, baseSum, combo), combo)
  }

  /** The candidates of one combination size r. */
  function Tier(fam: Family, tag: Tag, baseSum: real, pool: seq<real>, r: nat): seq<Candidate>
    requires DrawsCombinations(fam)
  {
    var ix := Indices(fam, |pool|, r);
    IndicesShape(fam, |pool|, r);
    seq(|ix|, k requires 0 <= k < |ix| => ComboCandidate(fam, tag, baseSum, pool, ix[k]))
  }

  /** The candidates of the sizes lo..hi-1, size by size. */
  function Tiers(fam: Family, tag: Tag, baseSum: real, pool: seq<real>, lo: nat, hi: nat): seq<Candidate>
    requires DrawsCombinations(fam)
  {
    Layers(TierBySize(fam, tag, baseSum, pool), lo, hi)
  }

  function TierBySize(fam: Family, tag: Tag, baseSum: real, pool: seq<real>): nat -> seq<Candidate>
    requires DrawsCombinations(fam)
  {
    (r: nat) => Tier(fam, tag, baseSum, pool, r)
  }

  function Layers(f: nat -> seq<Candidate>, lo: nat, hi: nat): seq<Candidate>
    decreases hi
  {
    if hi <= lo then [] else Layers(f, lo, hi - 1) + f(hi - 1)
  }

  lemma {:induction false} LayersMember(f: nat -> seq<Candidate>, lo: nat, hi: nat, c: Candidate) returns (r: nat)
    requires c in Layers(f, lo, hi)
    ensures lo <= r < hi && c in f(r)
    decreases hi
  {
    if c in f(hi - 1) {
      r := hi - 1;
    } else {
      r := LayersMember(f, lo, hi - 1, c);
    }
  }

  /** The additive or subtractive family over every base: sizes 1 to 3. */
  function ComboFamilies(fam: Family, bases: seq<Base>, pool: seq<real>): seq<Candidate>
    requires DrawsCombinations(fam)
  {
    if bases == [] then []
    else
      var b := bases[|bases| - 1];
      ComboFamilies(fam, bases[..|bases| - 1], pool) + Tiers(fam, b.name, b.sum, pool, 1, 4)
  }

  function SubstituteCandidate(tag: Tag, baseSum: real, s: real, a: real): Candidate {
    Candidate(Desc(Substitute, tag, [s, a]), CandidateValue(Substitute, baseSum, [s, a]), [s, a])
  }

  /** The candidate of removing `s` and adding `a`, unless the two are equal. */
  function Swaps(tag: Tag, baseSum: real, s: real, a: real): seq<Candidate> {
    if s == a then [] else [SubstituteCandidate(tag, baseSum, s, a)]
  }

  /** Removing `s` and adding each element of `add` that differs from it. */
  function SubstituteRow(tag: Tag, baseSum: real, s: real, add: seq<real>): seq<Candidate> {
    if add == [] then []
    else SubstituteRow(tag, baseSum, s, add[..|add| - 1]) + Swaps(tag, baseSum, s, add[|add| - 1])
  }

  /** The substitute family over one base: one row per subtractive element. */
  function SubstituteBlock(tag: Tag, baseSum: real, sub: seq<real>, add: seq<real>): seq<Candidate> {
    if sub == [] then []
    else SubstituteBlock(tag, baseSum, sub[..|sub| - 1], add) + SubstituteRow(tag, baseSum, sub[|sub| - 1], add)
  }

  function SubstituteFamilies(bases: seq<Base>, sub: seq<real>, add: seq<real>): seq<Candidate> {
    if bases == [] then []
    else
      var b := bases[|bases| - 1];
      SubstituteFamilies(bases[..|bases| - 1], sub, add) + SubstituteBlock(b.name, b.sum, sub, add)
  }

  /** The pool of the modifier-only family: the additive pool followed by the
      negated subtractive pool. */
  function ModifierPool(add: seq<real>, sub: seq<real>): (pool: seq<real>)
    ensures |pool| == |add| + |sub|
    ensures forall i :: 0 <= i < |add| ==> pool[i] == add[i]
    ensures forall j :: 0 <= j < |sub| ==> pool[|add| + j] == -sub[j]
  {
    add + seq(|sub|, j requires 0 <= j < |sub| => -sub[j])
  }

  function Bases(sumCyclic: real, sumLinear: real): seq<Base> {
    [Base(List1, sumCyclic), Base(List3, sumLinear)]
  }

  function BaseOnlyCandidates(sumCyclic: real, sumLinear: real): seq<Candidate> {
    [Candidate(Desc(BaseOnly, Cyclic, []), sumCyclic, []), Candidate(Desc(BaseOnly, Linear, []), sumLinear, [])]
  }

  /** Every candidate of one search, in the order the source evaluates them. */
  function AllCandidates(sumCyclic: real, sumLinear: real, add: seq<real>, sub: seq<real>): seq<Candidate> {
    var bases := Bases(sumCyclic, sumLinear);
    BaseOnlyCandidates(sumCyclic, sumLinear)
    + ComboFamilies(Additive, bases, add)
    + ComboFamilies(Subtractive, bases, sub)
    + SubstituteFamilies(bases, sub, add)
    + Tiers(ModifierOnly, List2, 0.0, ModifierPool(add, sub), 2, 6)
  }

  // ---------------------------------------------------------------------
  // Family laws

  lemma TierSound(fam: Family, tag: Tag, baseSum: real, pool: seq<real>, r: nat, k: nat)
    requires DrawsCombinations(fam) && k < |Tier(fam, tag, baseSum, pool, r)|
    ensures Shape(fam, |pool|, r, Indices(fam, |pool|, r)[k])
    ensures Tier(fam, tag, baseSum, pool, r)[k] == ComboCandidate(fam, tag, baseSum, pool, Indices(fam, |pool|, r)[k])
  {
    IndicesShape(fam, |pool|, r);
  }

  lemma TierWitness(fam: Family, tag: Tag, baseSum: real, pool: seq<real>, r: nat, c: Candidate) returns (idx: seq<nat>)
    requires DrawsCombinations(fam) && c in Tier(fam, tag, baseSum, pool, r)
    ensures |idx| == r && Shape(fam, |pool|, r, idx) && c == ComboCandidate(fam, tag, baseSum, pool, idx)
  {
    var t := Tier(fam, tag, baseSum, pool, r);
    var k :| 0 <= k < |t| && t[k] == c;
    TierSound(fam, tag, baseSum, pool, r, k);
    idx := Indices(fam, |pool|, r)[k];
  }

  lemma TierComplete(fam: Family, tag: Tag, baseSum: real, pool: seq<real>, r: nat, idx: seq<nat>)
    requires DrawsCombinations(fam) && Shape(fam, |pool|, r, idx)
    ensures ComboCandidate(fam, tag, baseSum, pool, idx) in Tier(fam, tag, baseSum, pool, r)
  {
    if fam.Subtractive? {
      WithoutReplacementMembers(|pool|, r, idx);
    } else {
      WithReplacementMembers(|pool|, r, idx);
    }
    var ix := Indices(fam, |pool|, r);
    var k :| 0 <= k < |ix| && ix[k] == idx;
    assert Tier(fam, tag, baseSum, pool, r)[k] == ComboCandidate(fam, tag, baseSum, pool, idx);
  }

  /** The candidates of size r are exactly those of the index sequences of the
      family's shape, each with the value the family gives it. */
  lemma TierMembers(fam: Family, tag: Tag, baseSum: real, pool: seq<real>, r: nat, c: Candidate)
    requires DrawsCombinations(fam)
    ensures c in Tier(fam, tag, baseSum, pool, r) <==>
      exists idx :: Shape(fam, |pool|, r, idx) && c == ComboCandidate(fam, tag, baseSum, pool, idx)
  {
    var t := Tier(fam, tag, baseSum, pool, r);
    if c in t {
      var idx := TierWitness(fam, tag, baseSum, pool, r, c);
    }
    if idx :| Shape(fam, |pool|, r, idx) && c == ComboCandidate(fam, tag, baseSum, pool, idx) {
      TierComplete(fam, tag, baseSum, pool, r, idx);
    }
  }

  /** Size r yields C(n + r - 1, r) candidates with replacement and C(n, r)
      without, one per index sequence, none repeated. */
  lemma TierCount(fam: Family, tag: Tag, baseSum: real, pool: seq<real>, r: nat)
    requires DrawsCombinations(fam)
    ensures Distinct(Indices(fam, |pool|, r))
    ensures |Tier(fam, tag, baseSum, pool, r)| ==
      if fam.Subtractive? then Binomial(|pool|, r)
      else if r == 0 then 1
      else Binomial(|pool| + r - 1, r)
  {
    if fam.Subtractive? {
      WithoutReplacementCount(0, |pool|, r);
      WithoutReplacementDistinct(0, |pool|, r);
    } else {
      WithReplacementCount(0, |pool|, r);
      WithReplacementDistinct(0, |pool|, r);
    }
  }

  lemma FamilyMembersSound(fam: Family, tag: Tag, baseSum: real, pool: seq<real>, lo: nat, hi: nat, c: Candidate)
    returns (idx: seq<nat>)
    requires DrawsCombinations(fam)
    requires c in Tiers(fam, tag, baseSum, pool, lo, hi)
    ensures lo <= |idx| < hi && Shape(fam, |pool|, |idx|, idx)
    ensures c == ComboCandidate(fam, tag, baseSum, pool, idx)
  {
    var r := LayersMember(TierBySize(fam, tag, baseSum, pool), lo, hi, c);
    idx := TierWitness(fam, tag, baseSum, pool, r, c);
  }

  lemma {:induction false} LayersComplete(f: nat -> seq<Candidate>, lo: nat, hi: nat, r: nat, c: Candidate)
    requires lo <= r < hi && c in f(r)
    ensures c in Layers(f, lo, hi)
    decreases hi
  {
    if r < hi - 1 {
      LayersComplete(f, lo, hi - 1, r, c);
    }
  }

  lemma FamilyMembersComplete(fam: Family, tag: Tag, baseSum: real, pool: seq<real>, lo: nat, hi: nat, idx: seq<nat>)
    requires DrawsCombinations(fam)
    requires lo <= |idx| < hi && Shape(fam, |pool|, |idx|, idx)
    ensures ComboCandidate(fam, tag, baseSum, pool, idx) in Tiers(fam, tag, baseSum, pool, lo, hi)
  {
    TierComplete(fam, tag, baseSum, pool, |idx|, idx);
    LayersComplete(TierBySize(fam, tag, baseSum, pool), lo, hi, |idx|, ComboCandidate(fam, tag, baseSum, pool, idx));
  }

  /** A whole family over one base (sizes lo..hi-1) holds exactly the
      candidates of the index sequences of the family's shape with a size in
      that range. */
  lemma FamilyMembers(fam: Family, tag: Tag, baseSum: real, pool: seq<real>, lo: nat, hi: nat, c: Candidate)
    requires DrawsCombinations(fam)
    ensures c in Tiers(fam, tag, baseSum, pool, lo, hi) <==>
      exists idx :: lo <= |idx| < hi && Shape(fam, |pool|, |idx|, idx)
        && c == ComboCandidate(fam, tag, baseSum, pool, idx)
  {
    if c in Tiers(fam, tag, baseSum, pool, lo, hi) {
      var idx := FamilyMembersSound(fam, tag, baseSum, pool, lo, hi, c);
    }
    if idx :| (lo <= |idx| < hi && Shape(fam, |pool|, |idx|, idx)
        && c == ComboCandidate(fam, tag, baseSum, pool, idx)) {
      FamilyMembersComplete(fam, tag, baseSum, pool, lo, hi, idx);
    }
  }

  lemma {:induction false} SubstituteRowMembers(tag: Tag, baseSum: real, s: real, add: seq<real>, c: Candidate)
    ensures c in SubstituteRow(tag, baseSum, s, add) <==>
      exists j :: 0 <= j < |add| && s != add[j] && c == SubstituteCandidate(tag, baseSum, s, add[j])
  {
    if add != [] {
      var init := add[..|add| - 1];
      SubstituteRowMembers(tag, baseSum, s, init, c);
      if j :| 0 <= j < |add| && s != add[j] && c == SubstituteCandidate(tag, baseSum, s, add[j]) {
        if j < |init| {
          assert init[j] == add[j];
        }
      }
      if j :| 0 <= j < |init| && s != init[j] && c == SubstituteCandidate(tag, baseSum, s, init[j]) {
        assert add[j] == init[j];
      }
    }
  }

  /** The substitute family over one base holds exactly the ordered pairs
      (sub[i], add[j]) of unequal values, each valued base - sub[i] + add[j]. */
  lemma {:induction false} SubstituteMembers(tag: Tag, baseSum: real, sub: seq<real>, add: seq<real>, c: Candidate)
    ensures c in SubstituteBlock(tag, baseSum, sub, add) <==>
      exists i, j :: 0 <= i < |sub| && 0 <= j < |add| && sub[i] != add[j]
        && c == SubstituteCandidate(tag, baseSum, sub[i], add[j])
  {
    if sub != [] {
      var init, s := sub[..|sub| - 1], sub[|sub| - 1];
      SubstituteMembers(tag, baseSum, init, add, c);
      SubstituteRowMembers(tag, baseSum, s, add, c);
      if i, j :| (0 <= i < |sub| && 0 <= j < |add| && sub[i] != add[j]
          && c == SubstituteCandidate(tag, baseSum, sub[i], add[j])) {
        if i < |init| {
          assert init[i] == sub[i];
        }
      }
      if i, j :| (0 <= i < |init| && 0 <= j < |add| && init[i] != add[j]
          && c == SubstituteCandidate(tag, baseSum, init[i], add[j])) {
        assert sub[i] == init[i];
      }
    }
  }

  // ---------------------------------------------------------------------
  // Step counts and values

  /** The base sum that a tag stands for; the modifier-only family has none. */
  function BaseSumOf(tag: Tag, sumCyclic: real, sumLinear: real): real {
    match tag
    case List1 => sumCyclic
    case Cyclic => sumCyclic
    case List3 => sumLinear
    case Linear => sumLinear
    case List2 => 0.0
  }

  /** The invariant every candidate of a search satisfies: the drawn list is
      the description's combination, its length (the step count) lies in the
      family's size range, the tag belongs to the family, a substitute pair
      never repeats a value, and the value is the family's formula applied to
      the base the tag names. */
  predicate WellFormed(c: Candidate, sumCyclic: real, sumLinear: real) {
    var d := c.desc;
    && c.drawn == d.combo
    && Admissible(d.family, d.tag, |d.combo|)
    && (d.family.Substitute? ==> d.combo[0] != d.combo[1])
    && c.value == CandidateValue(d.family, BaseSumOf(d.tag, sumCyclic, sumLinear), d.combo)
  }

  /** The step counts a family's candidates carry: none for a base alone,
      1 to 3 for the additive and subtractive families, 2 for a substitute
      pair and 2 to 5 for the modifier-only family. */
  predicate StepsFit(fam: Family, steps: nat) {
    match fam
    case BaseOnly => steps == 0
    case Additive => 1 <= steps <= 3
    case Subtractive => 1 <= steps <= 3
    case Substitute => steps == 2
    case ModifierOnly => 2 <= steps <= 5
  }

  /** The tags and step counts a family's candidates carry. */
  predicate Admissible(fam: Family, tag: Tag, size: nat) {
    && StepsFit(fam, size)
    && match fam
       case BaseOnly => tag == Cyclic || tag == Linear
       case ModifierOnly => tag == List2
       case _ => tag == List1 || tag == List3
  }

  predicate AllWellFormed(cs: seq<Candidate>, sumCyclic: real, sumLinear: real) {
    forall k :: 0 <= k < |cs| ==> WellFormed(cs[k], sumCyclic, sumLinear)
  }

  lemma {:induction false} TiersWellFormed(fam: Family, tag: Tag, sumCyclic: real, sumLinear: real, pool: seq<real>, lo: nat, hi: nat)
    requires DrawsCombinations(fam)
    requires forall r :: lo <= r < hi ==> Admissible(fam, tag, r)
    ensures AllWellFormed(Tiers(fam, tag, BaseSumOf(tag, sumCyclic, sumLinear), pool, lo, hi), sumCyclic, sumLinear)
    decreases hi
  {
    if lo < hi {
      var baseSum := BaseSumOf(tag, sumCyclic, sumLinear);
      TiersWellFormed(fam, tag, sumCyclic, sumLinear, pool, lo, hi - 1);
      TierWellFormed(fam, tag, sumCyclic, sumLinear, pool, hi - 1);
      assert Tiers(fam, tag, baseSum, pool, lo, hi)
        == Tiers(fam, tag, baseSum, pool, lo, hi - 1) + Tier(fam, tag, baseSum, pool, hi - 1);
      WellFormedConcat(Tiers(fam, tag, baseSum, pool, lo, hi - 1), Tier(fam, tag, baseSum, pool, hi - 1), sumCyclic, sumLinear);
    }
  }

  lemma TierWellFormed(fam: Family, tag: Tag, sumCyclic: real, sumLinear: real, pool: seq<real>, r: nat)
    requires DrawsCombinations(fam) && Admissible(fam, tag, r)
    ensures AllWellFormed(Tier(fam, tag, BaseSumOf(tag, sumCyclic, sumLinear), pool, r), sumCyclic, sumLinear)
  {
    var baseSum := BaseSumOf(tag, sumCyclic, sumLinear);
    var t := Tier(fam, tag, baseSum, pool, r);
    forall k | 0 <= k < |t| ensures WellFormed(t[k], sumCyclic, sumLinear) {
      TierSound(fam, tag, baseSum, pool, r, k);
    }
  }

  lemma {:induction false} SubstituteRowWellFormed(tag: Tag, sumCyclic: real, sumLinear: real, s: real, add: seq<real>)
    requires tag == List1 || tag == List3
    ensures AllWellFormed(SubstituteRow(tag, BaseSumOf(tag, sumCyclic, sumLinear), s, add), sumCyclic, sumLinear)
  {
    if add != [] {
      SubstituteRowWellFormed(tag, sumCyclic, sumLinear, s, add[..|add| - 1]);
    }
  }

  lemma {:induction false} SubstituteBlockWellFormed(tag: Tag, sumCyclic: real, sumLinear: real, sub: seq<real>, add: seq<real>)
    requires tag == List1 || tag == List3
    ensures AllWellFormed(SubstituteBlock(tag, BaseSumOf(tag, sumCyclic, sumLinear), sub, add), sumCyclic, sumLinear)
  {
    if sub != [] {
      SubstituteBlockWellFormed(tag, sumCyclic, sumLinear, sub[..|sub| - 1], add);
      SubstituteRowWellFormed(tag, sumCyclic, sumLinear, sub[|sub| - 1], add);
    }
  }

  lemma ComboFamiliesWellFormed(fam: Family, sumCyclic: real, sumLinear: real, pool: seq<real>)
    requires fam.Additive? || fam.Subtractive?
    ensures AllWellFormed(ComboFamilies(fam, Bases(sumCyclic, sumLinear), pool), sumCyclic, sumLinear)
  {
    var bases := Bases(sumCyclic, sumLinear);
    assert bases[..1][..0] == [] && bases[..1] == [bases[0]];
    var first := Tiers(fam, List1, sumCyclic, pool, 1, 4);
    var second := Tiers(fam, List3, sumLinear, pool, 1, 4);
    assert ComboFamilies(fam, bases[..1], pool) == ComboFamilies(fam, [], pool) + first;
    assert ComboFamilies(fam, bases, pool) == ComboFamilies(fam, bases[..1], pool) + second;
    assert [] + first == first;
    TiersWellFormed(fam, List1, sumCyclic, sumLinear, pool, 1, 4);
    TiersWellFormed(fam, List3, sumCyclic, sumLinear, pool, 1, 4);
    WellFormedConcat(first, second, sumCyclic, sumLinear);
  }

  lemma SubstituteFamiliesWellFormed(sumCyclic: real, sumLinear: real, sub: seq<real>, add: seq<real>)
    ensures AllWellFormed(SubstituteFamilies(Bases(sumCyclic, sumLinear), sub, add), sumCyclic, sumLinear)
  {
    var bases := Bases(sumCyclic, sumLinear);
    assert bases[..1][..0] == [] && bases[..1] == [bases[0]];
    var first := SubstituteBlock(List1, sumCyclic, sub, add);
    var second := SubstituteBlock(List3, sumLinear, sub, add);
    assert SubstituteFamilies(bases[..1], sub, add) == SubstituteFamilies([], sub, add) + first;
    assert SubstituteFamilies(bases, sub, add) == SubstituteFamilies(bases[..1], sub, add) + second;
    assert [] + first == first;
    SubstituteBlockWellFormed(List1, sumCyclic, sumLinear, sub, add);
    SubstituteBlockWellFormed(List3, sumCyclic, sumLinear, sub, add);
    WellFormedConcat(first, second, sumCyclic, sumLinear);
  }

  /** Every candidate of a search records its step count and value as its
      family prescribes: 0 steps for a base alone, 1 to 3 for additive and
      subtractive combinations, 2 for a substitute pair (never of two equal
      values), 2 to 5 for modifier-only combinations, which add no base. */
  lemma AllCandidatesWellFormed(sumCyclic: real, sumLinear: real, add: seq<real>, sub: seq<real>)
    ensures AllWellFormed(AllCandidates(sumCyclic, sumLinear, add, sub), sumCyclic, sumLinear)
  {
    var sc, sl := sumCyclic, sumLinear;
    var bases := Bases(sc, sl);
    var pool := ModifierPool(add, sub);
    BaseOnlyWellFormed(sc, sl);
    ComboFamiliesWellFormed(Additive, sc, sl, add);
    ComboFamiliesWellFormed(Subtractive, sc, sl, sub);
    SubstituteFamiliesWellFormed(sc, sl, sub, add);
    ModifiersWellFormed(sc, sl, pool);
    WellFormedFive(BaseOnlyCandidates(sc, sl), ComboFamilies(Additive, bases, add),
      ComboFamilies(Subtractive, bases, sub), SubstituteFamilies(bases, sub, add),
      Tiers(ModifierOnly, List2, 0.0, pool, 2, 6), sc, sl);
  }

  lemma ModifiersWellFormed(sumCyclic: real, sumLinear: real, pool: seq<real>)
    ensures AllWellFormed(Tiers(ModifierOnly, List2, 0.0, pool, 2, 6), sumCyclic, sumLinear)
  {
    assert forall r :: 2 <= r < 6 ==> Admissible(ModifierOnly, List2, r);
    TiersWellFormed(ModifierOnly, List2, sumCyclic, sumLinear, pool, 2, 6);
  }

  lemma BaseOnlyWellFormed(sumCyclic: real, sumLinear: real)
    ensures AllWellFormed(BaseOnlyCandidates(sumCyclic, sumLinear), sumCyclic, sumLinear)
  {
  }

  lemma WellFormedFive(a: seq<Candidate>, b: seq<Candidate>, c: seq<Candidate>, d: seq<Candidate>, e: seq<Candidate>,
                       sumCyclic: real, sumLinear: real)
    requires AllWellFormed(a, sumCyclic, sumLinear) && AllWellFormed(b, sumCyclic, sumLinear)
    requires AllWellFormed(c, sumCyclic, sumLinear) && AllWellFormed(d, sumCyclic, sumLinear)
    requires AllWellFormed(e, sumCyclic, sumLinear)
    ensures AllWellFormed(a + b + c + d + e, sumCyclic, sumLinear)
  {
    WellFormedConcat(a, b, sumCyclic, sumLinear);
    WellFormedConcat(a + b, c, sumCyclic, sumLinear);
    WellFormedConcat(a + b + c, d, sumCyclic, sumLinear);
    WellFormedConcat(a + b + c + d, e, sumCyclic, sumLinear);
  }

  lemma WellFormedConcat(a: seq<Candidate>, b: seq<Candidate>, sumCyclic: real, sumLinear: real)
    requires AllWellFormed(a, sumCyclic, sumLinear) && AllWellFormed(b, sumCyclic, sumLinear)
    ensures AllWellFormed(a + b, sumCyclic, sumLinear)
  {
    forall k | 0 <= k < |a + b| ensures WellFormed((a + b)[k], sumCyclic, sumLinear) {
      if k < |a| {
        assert (a + b)[k] == a[k];
      } else {
        assert (a + b)[k] == b[k - |a|];
      }
    }
  }
}
