/** The modifier classifier: splits the raw modifier list into the additive
    pool and the subtractive pool. */
module Classifier {

  /** One element of the raw modifier list. A bare number is eligible for both
      pools; a string with a '+' or '-' prefix is already parsed into its sign
      and magnitude; any other string is kept as text. */
  datatype Token = Bare(value: real) | Plus(value: real) | Minus(value: real) | Other(text: string)

  /** What one token appends to the additive pool. */
  function AddPart(t: Token): seq<real> {
    match t
    case Bare(v) => [v]
    case Plus(v) => [v]
    case Minus(_) => []
    case Other(_) => []
  }

  /** What one token appends to the subtractive pool. */
  function SubPart(t: Token): seq<real> {
    match t
    case Bare(v) => [v]
    case Plus(_) => []
    case Minus(v) => [v]
    case Other(_) => []
  }

  /** The additive pool built from `raw`, token by token in input order. */
  function AddPool(raw: seq<Token>): seq<real> {
    if raw == [] then [] else AddPool(raw[..|raw| - 1]) + AddPart(raw[|raw| - 1])
  }

  /** The subtractive pool built from `raw`, token by token in input order. */
  function SubPool(raw: seq<Token>): seq<real> {
    if raw == [] then [] else SubPool(raw[..|raw| - 1]) + SubPart(raw[|raw| - 1])
  }

  /** The classification loop: appends to both pools in place. */
  method Classify(raw: seq<Token>) returns (add: seq<real>, sub: seq<real>)
    ensures add == AddPool(raw) && sub == SubPool(raw)
  {
    add, sub := [], [];
    for i := 0 to |raw|
      invariant add == AddPool(raw[..i]) && sub == SubPool(raw[..i])
    {
      assert raw[..i + 1][..i] == raw[..i];
      match raw[i]
      case Bare(v) =>
        add := add + [v];
        sub := sub + [v];
      case Plus(v) =>
        add := add + [v];
      case Minus(v) =>
        sub := sub + [v];
      case Other(_) =>
    }
    assert raw[..|raw|] == raw;
  }

  /** Input order is kept: classifying a concatenation concatenates the pools. */
  lemma {:induction false} PoolsOfConcat(a: seq<Token>, b: seq<Token>)
    ensures AddPool(a + b) == AddPool(a) + AddPool(b)
    ensures SubPool(a + b) == SubPool(a) + SubPool(b)
    decreases |b|
  {
    if b == [] {
      assert a + b == a;
    } else {
      var b' := b[..|b| - 1];
      assert (a + b)[..|a + b| - 1] == a + b';
      assert (a + b)[|a + b| - 1] == b[|b| - 1];
      PoolsOfConcat(a, b');
    }
  }

  /** Each occurrence of a value in the additive pool comes from one bare or
      '+' token of that value, and each such token contributes exactly one
      occurrence; '-' tokens and other strings contribute nothing. */
  lemma {:induction false} AddPoolMultiplicity(raw: seq<Token>, x: real)
    ensures multiset(AddPool(raw))[x] == multiset(raw)[Bare(x)] + multiset(raw)[Plus(x)]
  {
    if raw != [] {
      var init, last := raw[..|raw| - 1], raw[|raw| - 1];
      assert raw == init + [last];
      AddPoolMultiplicity(init, x);
    }
  }

  /** Each occurrence of a value in the subtractive pool comes from one bare or
      '-' token of that value, and each such token contributes exactly one
      occurrence; '+' tokens and other strings contribute nothing. */
  lemma {:induction false} SubPoolMultiplicity(raw: seq<Token>, x: real)
    ensures multiset(SubPool(raw))[x] == multiset(raw)[Bare(x)] + multiset(raw)[Minus(x)]
  {
    if raw != [] {
      var init, last := raw[..|raw| - 1], raw[|raw| - 1];
      assert raw == init + [last];
      SubPoolMultiplicity(init, x);
    }
  }

  /** A value is in the additive pool exactly when some bare or '+' token
      carries it, and in the subtractive pool exactly when some bare or '-'
      token carries it. */
  lemma PoolMembers(raw: seq<Token>, x: real)
    ensures x in AddPool(raw) <==> Bare(x) in raw || Plus(x) in raw
    ensures x in SubPool(raw) <==> Bare(x) in raw || Minus(x) in raw
  {
    AddPoolMultiplicity(raw, x);
    SubPoolMultiplicity(raw, x);
  }

  /** Strings with neither prefix are dropped: removing them changes neither
      pool. */
  lemma {:induction false} OthersDropped(a: seq<Token>, text: string, b: seq<Token>)
    ensures AddPool(a + [Other(text)] + b) == AddPool(a + b)
    ensures SubPool(a + [Other(text)] + b) == SubPool(a + b)
  {
    var o := [Other(text)];
    assert AddPool(o) == [] && SubPool(o) == [] by {
      assert o[..0] == [];
    }
    PoolsOfConcat(a + o, b);
    PoolsOfConcat(a, o);
    PoolsOfConcat(a, b);
    calc {
      AddPool(a + o + b);
      AddPool(a + o) + AddPool(b);
      AddPool(a) + [] + AddPool(b);
      { assert AddPool(a) + [] == AddPool(a); }
      AddPool(a + b);
    }
    calc {
      SubPool(a + o + b);
      SubPool(a + o) + SubPool(b);
      SubPool(a) + [] + SubPool(b);
      { assert SubPool(a) + [] == SubPool(a); }
      SubPool(a + b);
    }
  }

  /** A list of bare numbers lands unchanged in both pools. */
  lemma {:induction false} BareInBothPools(raw: seq<Token>)
    requires forall i :: 0 <= i < |raw| ==> raw[i].Bare?
    ensures |AddPool(raw)| == |raw|
    ensures AddPool(raw) == SubPool(raw)
    ensures forall i :: 0 <= i < |raw| ==> AddPool(raw)[i] == raw[i].value
  {
    if raw != [] {
      BareInBothPools(raw[..|raw| - 1]);
    }
  }
}
