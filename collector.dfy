/** The match collector: the tolerance test, the relabelling and custom-name
    suffix of descriptions, and the results list that add_result appends to. */
module Collector {
  import opened Families

  datatype Option<T> = None | Some(value: T)

  /** What one search is asked: the target mass, the tolerance, and the
      custom names keyed by relabelled description. */
  datatype Query = Query(target: real, tolerance: real, customNames: map<Desc, string>)

  /** One recorded match: the step count, the error, the relabelled
      description with its custom-name suffix (if any), and the value. */
  datatype Match = Match(steps: nat, error: real, desc: Desc, alias: Option<string>, value: real)

  function Abs(x: real): real {
    if x < 0.0 then -x else x
  }

  /** within_tolerance: the distance to the target is at most the tolerance,
      boundary included. */
  function WithinTolerance(q: Query, value: real): (ok: bool)
    ensures ok <==> q.target - q.tolerance <= value <= q.target + q.tolerance
  {
    Abs(value - q.target) <= q.tolerance
  }

  /** Replaces the legacy list names List1 and List3 by Cyclic and Linear. */
  function RelabelTag(t: Tag): Tag {
    match t
    case List1 => Cyclic
    case List3 => Linear
    case _ => t
  }

  function Relabel(d: Desc): Desc {
    d.(tag := RelabelTag(d.tag))
  }

  /** The custom-name suffix of a relabelled description. */
  function AliasOf(q: Query, d: Desc): Option<string> {
    if d in q.customNames then Some(q.customNames[d]) else None
  }

  /** The entry add_result appends for a candidate within tolerance. */
  function MatchOf(q: Query, c: Candidate): Match {
    var d := Relabel(c.desc);
    Match(|c.drawn|, Abs(c.value - q.target), d, AliasOf(q, d), c.value)
  }

  /** What one call of add_result appends to the results. */
  function Record(q: Query, c: Candidate): seq<Match> {
    if WithinTolerance(q, c.value) then [MatchOf(q, c)] else []
  }

  /** What a run of add_result calls over `cs`, in order, appends. */
  function RecordAll(q: Query, cs: seq<Candidate>): seq<Match> {
    if cs == [] then [] else RecordAll(q, cs[..|cs| - 1]) + Record(q, cs[|cs| - 1])
  }

  /** The guard every recorded match satisfies. */
  predicate Guarded(q: Query, m: Match) {
    m.error == Abs(m.value - q.target) && m.error <= q.tolerance
  }

  predicate AllGuarded(q: Query, ms: seq<Match>) {
    forall i :: 0 <= i < |ms| ==> Guarded(q, ms[i])
  }

  /** The module-level results list together with the constants that
      within_tolerance and add_result read. */
  class MatchCollector {
    const query: Query
    var results: seq<Match>

    ghost predicate Valid()
      reads this
    {
      AllGuarded(query, results)
    }

    constructor (q: Query)
      ensures Valid()
      ensures query == q && results == []
    {
      query := q;
      results := [];
    }

    /** add_result: records the candidate when it is within tolerance and
        leaves the results unchanged otherwise. */
    method AddResult(desc: Desc, value: real, steps: seq<real>)
      requires Valid()
      modifies this
      ensures Valid()
      ensures results == old(results) + Record(query, Candidate(desc, value, steps))
      ensures !WithinTolerance(query, value) ==> results == old(results)
      ensures WithinTolerance(query, value) ==> |results| == |old(results)| + 1
    {
      if WithinTolerance(query, value) {
        var error := Abs(value - query.target);
        var d := Relabel(desc);
        if d in query.customNames {
          results := results + [Match(|steps|, error, d, Some(query.customNames[d]), value)];
        } else {
          results := results + [Match(|steps|, error, d, None, value)];
        }
      }
    }
  }

  // ---------------------------------------------------------------------
  // Laws of the collector

  /** Recording two runs one after the other records their concatenation. */
  lemma {:induction false} RecordAllConcat(q: Query, a: seq<Candidate>, b: seq<Candidate>)
    ensures RecordAll(q, a + b) == RecordAll(q, a) + RecordAll(q, b)
    decreases |b|
  {
    if b == [] {
      assert a + b == a;
    } else {
      var b' := b[..|b| - 1];
      assert (a + b)[..|a + b| - 1] == a + b';
      assert (a + b)[|a + b| - 1] == b[|b| - 1];
      RecordAllConcat(q, a, b');
    }
  }

  /** Recording one more candidate appends what add_result appends for it. */
  lemma RecordAllSnoc(q: Query, cs: seq<Candidate>, c: Candidate)
    ensures RecordAll(q, cs + [c]) == RecordAll(q, cs) + Record(q, c)
  {
    assert (cs + [c])[..|cs|] == cs;
  }

  lemma AppendAssoc<T>(a: seq<T>, b: seq<T>, c: seq<T>)
    ensures a + b + c == a + (b + c)
  {
  }

  /** The results list after one run of add_result calls over `a` and
      another over `b`. */
  lemma RecordedConcat(q: Query, start: seq<Match>, a: seq<Candidate>, b: seq<Candidate>)
    ensures start + RecordAll(q, a) + RecordAll(q, b) == start + RecordAll(q, a + b)
  {
    RecordAllConcat(q, a, b);
    AppendAssoc(start, RecordAll(q, a), RecordAll(q, b));
  }

  /** The results list after a run over `cs` and one more add_result call. */
  lemma RecordedSnoc(q: Query, start: seq<Match>, cs: seq<Candidate>, c: Candidate)
    ensures start + RecordAll(q, cs) + Record(q, c) == start + RecordAll(q, cs + [c])
  {
    RecordAllSnoc(q, cs, c);
    AppendAssoc(start, RecordAll(q, cs), Record(q, c));
  }

  /** Every recorded match has error |value - target| and that error is at
      most the tolerance. */
  lemma {:induction false} RecordAllGuarded(q: Query, cs: seq<Candidate>)
    ensures AllGuarded(q, RecordAll(q, cs))
  {
    if cs != [] {
      RecordAllGuarded(q, cs[..|cs| - 1]);
    }
  }

  /** The recorded matches are exactly the candidates within tolerance, none
      dropped, none merged, none invented. */
  lemma {:induction false} RecordAllMembers(q: Query, cs: seq<Candidate>, m: Match)
    ensures m in RecordAll(q, cs) <==>
      exists i :: 0 <= i < |cs| && WithinTolerance(q, cs[i].value) && m == MatchOf(q, cs[i])
  {
    if cs != [] {
      var init := cs[..|cs| - 1];
      RecordAllMembers(q, init, m);
      if i :| 0 <= i < |cs| && WithinTolerance(q, cs[i].value) && m == MatchOf(q, cs[i]) {
        if i < |init| {
          assert init[i] == cs[i];
        }
      }
      if i :| 0 <= i < |init| && WithinTolerance(q, init[i].value) && m == MatchOf(q, init[i]) {
        assert cs[i] == init[i];
      }
    }
  }

  /** A recorded description has List1 replaced by Cyclic and List3 by
      Linear (so it never carries either legacy name), keeps the
      candidate's family and combination, and has a custom-name suffix exactly
      when the relabelled description is a key of the custom names. */
  lemma MatchOfLabels(q: Query, c: Candidate)
    ensures c.desc.tag == List1 ==> MatchOf(q, c).desc.tag == Cyclic
    ensures c.desc.tag == List3 ==> MatchOf(q, c).desc.tag == Linear
    ensures MatchOf(q, c).desc.tag != List1 && MatchOf(q, c).desc.tag != List3
    ensures MatchOf(q, c).desc.family == c.desc.family && MatchOf(q, c).desc.combo == c.desc.combo
    ensures c.desc.tag != List1 && c.desc.tag != List3 ==> MatchOf(q, c).desc == c.desc
    ensures MatchOf(q, c).alias.Some? <==> Relabel(c.desc) in q.customNames
    ensures MatchOf(q, c).alias.Some? ==> MatchOf(q, c).alias.value == q.customNames[Relabel(c.desc)]
  {
  }
}
