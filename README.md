# Mass match: the combination search

A model of the search engine of the mass-matching tool. Given the masses of a
cyclic base and a linear base, a raw list of modifiers, a target mass and a
tolerance, the tool does the following:

1. It splits the modifiers into an additive pool and a subtractive pool.
2. It sums each base.
3. It evaluates every candidate combination of five families, in a fixed order:
   - each base alone;
   - a base plus 1 to 3 additive modifiers, drawn with replacement;
   - a base minus 1 to 3 subtractive modifiers, drawn without replacement;
   - a base with one subtractive modifier swapped for one additive modifier of
     a different value;
   - 2 to 5 modifiers alone, drawn with replacement from the additive pool
     followed by the negated subtractive pool.
4. It records each candidate whose value lies within the tolerance of the
   target. A recorded entry holds:
   - its step count;
   - its error;
   - its description, relabelled from the legacy list names to "Cyclic" and
     "Linear";
   - the custom-name suffix, when the description has one;
   - its value.
5. It sorts the recorded entries stably by step count and then by error.

The modules follow the script's stages:

| module | models |
|---|---|
| `Classifier` | The classification loop. `Classify` is a method with a loop, proved against the pool functions `AddPool` and `SubPool`. |
| `Combinatorics` | The two itertools generators as index sequences: `WithReplacement` is non-decreasing, `WithoutReplacement` is strictly increasing. Both are listed in itertools' lexicographic order. |
| `Families` | Each family as the sequence of candidates (description, value, drawn list) its loops hand to `add_result`, in the loops' order. `AllCandidates` is the whole run. |
| `Collector` | `within_tolerance`, and `add_result` as a method of the `MatchCollector` class, whose `results` field is the module-level list. `RecordAll` specifies what a run of `add_result` calls appends. |
| `Enumerator` | The nested loops as methods. Each one proves that the results list grows by `RecordAll` of its family's candidate sequence. |
| `Ranking` | The stable sort as an insertion sort, with order, permutation and stability proved. It also proves that these three facts determine the output, so any stable sort by the same key gives the same list. |
| `MassMatch` | The whole script, from inputs to ranked list. |

An additive pool of two values with sizes 1 to 3 yields 2 + 3 + 4 = 9
candidates; `Families.TierCount` states the count.

## Model

| member | source | states |
|---|---|---|
| Classifier.Classify | mass_match_app.py:35-46 | The loop appends each bare number to both pools, each "+" string to the additive pool and each "-" string to the subtractive pool, in input order. Its output equals the pool functions. |
| Classifier.PoolsOfConcat | mass_match_app.py:38-46 | Classification keeps input order: the pools of a concatenation are the concatenated pools. |
| Classifier.AddPoolMultiplicity | mass_match_app.py:38-46 | The number of occurrences of a value in the additive pool equals the number of its bare and "+" tokens. |
| Classifier.SubPoolMultiplicity | mass_match_app.py:38-46 | The number of occurrences of a value in the subtractive pool equals the number of its bare and "-" tokens. |
| Classifier.PoolMembers | mass_match_app.py:38-46 | A value is in the additive pool if and only if a bare or "+" token carries it. It is in the subtractive pool if and only if a bare or "-" token carries it. |
| Classifier.OthersDropped | mass_match_app.py:39-43 | A string with neither prefix changes neither pool. |
| Classifier.BareInBothPools | mass_match_app.py:44-46 | A list of bare numbers becomes both pools unchanged. |
| Collector.WithinTolerance | mass_match_app.py:57-58 | A value passes if and only if it lies in [target - tolerance, target + tolerance], both bounds included. |
| Collector.MatchCollector.AddResult | mass_match_app.py:60-69 | The results grow by exactly one entry (relabelled, suffixed, with error and step count) when the value passes the tolerance test, and stay unchanged otherwise. The guard invariant is kept. |
| Collector.RecordAllMembers | mass_match_app.py:60-69 | The recorded entries are exactly the entries of the candidates within tolerance. None is dropped and none is invented. |
| Collector.RecordAllGuarded | mass_match_app.py:61-62 | Every recorded entry has error abs(value - target), and that error is at most the tolerance. |
| Collector.RecordAllConcat | mass_match_app.py:60-69 | Recording two runs of calls one after the other appends the record of their concatenation. |
| Collector.MatchOfLabels | mass_match_app.py:63-67 | A recorded description turns List1 into Cyclic and List3 into Linear, leaves other tags alone, and keeps its family and combination. It carries a custom-name suffix if and only if the relabelled description is a key of the custom names, and the suffix is that key's name. |
| Combinatorics.WithReplacementMembers | mass_match_app.py:79 | The combinations with replacement of size r are exactly the non-decreasing index sequences of length r over the pool. |
| Combinatorics.WithoutReplacementMembers | mass_match_app.py:85 | The combinations of size r are exactly the strictly increasing index sequences of length r over the pool. |
| Combinatorics.WithReplacementCount | mass_match_app.py:79 | There are C(n + r - 1, r) combinations with replacement (1 when r = 0). |
| Combinatorics.WithoutReplacementCount | mass_match_app.py:85 | There are C(n, r) combinations without replacement. |
| Combinatorics.WithReplacementDistinct | mass_match_app.py:79 | No combination with replacement is listed twice. |
| Combinatorics.WithoutReplacementDistinct | mass_match_app.py:85 | No combination without replacement is listed twice. |
| Families.TierMembers | mass_match_app.py:79-80 | The candidates of one size are exactly the combinations of the family's shape, each valued at the base plus, or minus, its sum (or its sum alone for the modifier-only family). |
| Families.TierCount | mass_match_app.py:79 | One size yields C(n + r - 1, r) candidates with replacement and C(n, r) without, one per distinct index sequence. |
| Families.FamilyMembers | mass_match_app.py:78-80 | A family over one base, for the sizes lo to hi - 1, holds exactly the candidates of the shaped combinations with a size in that range. |
| Families.SubstituteMembers | mass_match_app.py:90-95 | The substitute family over one base holds exactly the pairs (sub, add) with sub != add, each valued at base - sub + add. |
| Families.ModifierPool | mass_match_app.py:97 | The modifier-only pool is the additive pool followed by the negation of each subtractive value, in order. |
| Families.AllCandidatesWellFormed | mass_match_app.py:74-101 | Every candidate of a search has its family's step count and tag, a drawn list equal to its combination, and the value its family's formula gives. No substitute pair repeats a value. |
| Enumerator.RecordCombo | mass_match_app.py:80-81 | The loop body hands one combination's value and steps to add_result. |
| Enumerator.RecordTier | mass_match_app.py:79-81 | The loop over the combinations of one size appends the record of that size's candidates. |
| Enumerator.RecordTiers | mass_match_app.py:78-81 | The loop over the sizes lo to hi - 1 appends the record of all of them, in size order. |
| Enumerator.RecordComboFamilies | mass_match_app.py:77-87 | The loop over the two bases appends the additive (or subtractive) family's record. |
| Enumerator.RecordSwap | mass_match_app.py:92-95 | Equal values are skipped; otherwise the pair is handed to add_result with value base - sub + add and two steps. |
| Enumerator.RecordRow | mass_match_app.py:91-95 | The loop over the additive pool appends the record of one removed value's swaps. |
| Enumerator.RecordBlock | mass_match_app.py:90-95 | The loop over the subtractive pool appends one base's substitute record. |
| Enumerator.RecordSubstitutes | mass_match_app.py:89-95 | The loop over the two bases appends the substitute family's record. |
| Enumerator.RecordModifierOnly | mass_match_app.py:97-101 | The modifier-only loop appends the record of sizes 2 to 5 over the combined pool. |
| Enumerator.Enumerate | mass_match_app.py:74-101 | The whole enumeration appends the record of every candidate, in the order the source evaluates them. |
| Ranking.RankRanked | mass_match_app.py:105 | The sorted list is ascending by (steps, error). |
| Ranking.RankPermutes | mass_match_app.py:105 | The sorted list holds the same entries, each as often, as the results. |
| Ranking.RankStable | mass_match_app.py:105 | Entries of equal (steps, error) keep the order in which they were recorded. |
| Ranking.RankUnique | mass_match_app.py:105 | Any list that is ascending by the key and keeps the recorded order within each key is the sorted list. |
| MassMatch.Search | mass_match_app.py:35-105 | The displayed list is ascending by (steps, error), a permutation of the recorded results, and stable. Each entry in it passes the tolerance guard and fits its family. |
| MassMatch.MatchShape | mass_match_app.py:69 | Every recorded entry has an error within tolerance, a step count equal to its combination's length and in its family's range, a relabelled tag, its family's value, and its custom-name suffix. |

## Left out

- The Streamlit page is not modelled: the input widgets, the success and warning messages, and the formatting of the display loop (line 106). The inputs are parameters of `MassMatch.Search`, and its result is the list the display loop iterates.
- The hard-coded datasets (the two base lists and the raw modifier list) are not modelled. They are the parameters `cyclic`, `linear` and `raw`.
- Masses are exact reals. IEEE double rounding in `sum`, in the subtractions and in `abs` is not modelled, and neither is the order dependence of floating-point sums. A boundary case of the tolerance test can therefore go the other way in the program.
- Parsing of "+x"/"-x" strings with `float` is not modelled. A token arrives already parsed as `Plus(x)` or `Minus(x)`, and an unparsable string, which makes the program raise, is not represented. A string with no sign prefix is `Other(text)` and is dropped, as the code drops it.
- Descriptions are structured values (family, tag, combination) instead of formatted strings. The relabelling of "List1"/"List3" is a change of tag, and the custom names are keyed by the relabelled structured description. Python's tuple formatting is left out.
- The duplicated error field at the end of each result tuple is not modelled: `Collector.Match` holds it once.
- Python's Timsort is not modelled. The sort is modelled as a stable insertion sort, and `Ranking.RankUnique` shows that every stable sort by the same key returns the same list.
- Enumerator.RecordSwap: the `continue` of the inner substitute loop is modelled as a branch that skips the call to add_result.
