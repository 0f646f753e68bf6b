# TalkRange decision pipeline in Dafny

TalkRange reads one utterance in a Korean workplace conversation, together
with the speaker's role, the time of day, a culture mode and the earlier
turns. It estimates a probability range over seven intents:

- GO_HOME, STAY, NEUTRAL, TEST_BOUNDARY, POWER_SIGNAL, SMALL_TALK, HELP_SEEK.

It then ranks seven candidate replies by expected value. This project models
that pipeline and proves properties of it:

- **Signal extraction** (`signals.dfy`): ten literal-alternation tests and a
  silence test add tags to an insertion-ordered set. The second part of the
  file is the likelihood lookup with its uniform fallback.
- **The prior** (`prior.dfy`): a seven-slot weight array is cloned from the
  base vector. The culture, role and time deltas are added to it in place.
  The weights are then floored at 0.05 and normalised in a loop.
- **The posterior** (`inference.dfy`): the prior in log space, a history
  keyword boost, and the log-likelihood of each distinct signal are
  accumulated in an array. Softmax turns the scores into a distribution,
  which is sorted by descending probability.
- **Phrase templates** (`actions.dfy`): the first matching table entry, or a
  generic sentence, followed by a culture marker.
- **EV ranking** (`ev.dfy`): the range is optionally blended toward uniform
  and keyed by intent. Each of the seven catalog actions is scored, and the
  recommendations are sorted in place by EV.
- **Request helpers** (`api.dfy`): clamping, profile defaulting, history
  filtering and required-field validation.
- **Shared modules**:
  - `types.dfy`: intents, profiles, exact sums;
  - `text.dfy`: substring containment, ASCII lower-casing, trimming;
  - `sorting.dfy`: the stable descending sort, proved sorted, a permutation
    and stable, plus its in-place array version.

Parameters replace what the program reads from outside:

- The likelihood table, which the program loads from a JSON file, is a
  `map<string, map<Intent, real>>`.
- `Math.exp` and `Math.log` are function parameters `exp` and `ln`. About
  `exp` the model assumes only `exp(x) > 0` and `exp(0) == 1` (`ExpLaws`).
  The lemmas about how the culture moves the posterior also assume
  `exp(a + b) == exp(a) * exp(b)` and `exp(ln(x)) == x` for `x > 0`
  (`LogLaws`); nothing else is assumed about `ln`.
- The weight configuration, the strategy mode and the default profile, which
  the program reads from environment variables, are ordinary parameters.

Probabilities are exact reals, so "sums to 1" is proved exactly.

Looking up an unknown tag reads the intents of the "question" entry of the
table. The source therefore fails when an unknown tag is looked up on a table
without that entry. `LikelihoodFor` and `Infer` require the entry, as an
assumption about the likelihood file.

## Model

| member | source | states |
|---|---|---|
| Signals.ExtractSignals | src/signals.ts:30-69 | the successive conditional adds produce exactly `SignalsOf(utterance)`: the tags of the checks that fire, in check order |
| Signals.SignalsCharacterised | src/signals.ts:31-68 | a tag is present iff its check fires; every tag is one of the eleven; no tag repeats; there are at most 11; tags appear in strictly increasing check order |
| Signals.SilenceIsAlone | src/signals.ts:64-66 | silence is present iff the utterance is blank after trimming; then it is the only tag, because every pattern needs a non-whitespace literal |
| Signals.EmptyIsSilence | src/signals.ts:64-68 | the empty utterance yields exactly `[silence]` |
| Signals.LikelihoodFor | src/signals.ts:75-88 | a known tag returns its table vector verbatim; an unknown tag returns the question entry's intents, each mapped to exactly `1/n` (the smoothing constant has no effect) |
| Signals.FallbackIsDistribution | src/signals.ts:81-87 | when the question entry lists all seven intents, the fallback vector sums to 1 |
| Prior.CloneBase | src/prior.ts:17-25 | a fresh array holding GO_HOME=STAY=NEUTRAL=1, TEST_BOUNDARY=POWER_SIGNAL=0.6, SMALL_TALK=HELP_SEEK=0.8 |
| Prior.ApplyCulture | src/prior.ts:31-48 | each slot gains exactly its culture delta (pressure: STAY+0.6, POWER_SIGNAL+0.4, GO_HOME−0.2; wlb: GO_HOME+0.8, STAY−0.3, NEUTRAL+0.2; balanced: NEUTRAL+0.2); all other slots are unchanged |
| Prior.ApplyRole | src/prior.ts:54-69 | each slot gains the delta of the single role category chosen first-match-wins (manager, peer, family, client) on the lower-cased role; no match leaves the weights unchanged |
| Prior.ApplyTime | src/prior.ts:75-88 | each slot gains the sum of the deltas of every time cue group present (late/퇴근/밤, deadline/마감, lunch/점심) |
| Prior.ManagerTakesPrecedence | src/prior.ts:56-68 | a role naming a manager gets only the manager deltas: POWER_SIGNAL +0.5, and no peer delta on SMALL_TALK even when the role also names a peer |
| Prior.TimeCuesStack | src/prior.ts:77-87 | with 퇴근, 마감 and 점심 all present the time deltas add up: GO_HOME +0.6, STAY +0.3, HELP_SEEK +0.4, SMALL_TALK +0.3, NEUTRAL 0 |
| Prior.UpperCaseManager | src/prior.ts:55-56 | an upper-case MANAGER still selects the manager category |
| Prior.PriorIgnoresCase | src/prior.ts:54-88 | the prior of the lower-cased role and time text equals the prior of the original text |
| Prior.Floored | src/prior.ts:97 | a floored weight is at least 0.05 and at least the weight, and is one of the two: the larger of the weight and 0.05 |
| Prior.Normalize | src/prior.ts:94-103 | the loop-accumulated total gives exactly `Normalized(w)`: the floored weights divided by their sum |
| Prior.NormalizedIsDistribution | src/prior.ts:94-103 | one entry per intent in the fixed order; each probability is at least 0.05/total > 0; they sum to 1 |
| Prior.ComputePrior | src/prior.ts:109-119 | clone, culture, role, time, normalise gives exactly `PriorOf(role, time, culture)` |
| Prior.PriorIsDistribution | src/prior.ts:109-119 | the prior is in intent order, strictly positive and sums to 1 |
| Prior.WeightsAboveHalf | src/prior.ts:17-88 | for every role, time and culture each weight before normalising is at least 0.5, so the 0.05 floor never changes a value |
| Prior.WlbFavoursGoingHome | src/prior.ts:31-48 | with role and time fixed, GO_HOME is strictly more likely and STAY strictly less likely under wlb than under pressure |
| Prior.CultureCross | src/prior.ts:31-48 | with role and time fixed, switching from pressure to wlb raises GO_HOME's weight relative to every other intent's (strictly relative to STAY's) and lowers STAY's weight relative to every other intent's (strictly relative to GO_HOME's) |
| Inference.LogArgument | src/inference.ts:19 | the log is always taken of a value at least 1e-9; values at or above 1e-9 are unchanged |
| Inference.MaxOf | src/inference.ts:26 | the maximum is at least every score and is one of them |
| Inference.SoftmaxDenominator | src/inference.ts:26-28 | the sum of the shifted exponentials is at least 1, so the division is never by zero |
| Inference.SoftmaxIsDistribution | src/inference.ts:25-33 | softmax gives one entry per intent in the fixed order; each is strictly positive; they sum to 1 |
| Inference.SoftmaxOfLogWeights | src/inference.ts:25-33 | under `LogLaws`, the softmax of `ln(w[k] / total) + beta[k]` gives intent k exactly `w[k]·exp(beta[k])` over the sum of these products: the shift by the maximum and the total cancel |
| Inference.HistoryBoost | src/inference.ts:39-57 | the conditional updates fill a fresh array with exactly `BoostOf(history, i)` for each intent |
| Inference.BoostValues | src/inference.ts:39-57 | STAY ∈ {0, 0.1}, GO_HOME ∈ {0, 0.1}, HELP_SEEK ∈ {0, 0.05, 0.15, 0.2}; every other intent gets 0 |
| Inference.EmptyHistoryNoBoost | src/inference.ts:40-45 | an empty history boosts nothing |
| Inference.OvertimeInAnyEntry | src/inference.ts:45-48 | a 야근 in any entry gives STAY exactly 0.1, once, however often it occurs |
| Inference.HistorySignalsMembership | src/inference.ts:71 | a tag is among the history signals iff some history entry yields it |
| Inference.DedupKeepsEachOnce | src/inference.ts:72 | the deduplicated list has no repeats and the same members as its input |
| Inference.DedupPrefix | src/inference.ts:71-72 | the deduplication of a concatenation starts with the deduplication of its first part |
| Inference.DedupOfDistinct | src/inference.ts:72 | a repeat-free list is unchanged by deduplication |
| Inference.CollectHistorySignals | src/inference.ts:71 | the loop over history entries collects exactly `HistorySignals(history)` |
| Inference.CollectSignals | src/inference.ts:71-72 | the utterance tags followed by the history tags, deduplicated by `Dedup` as `new Set` does, give exactly `DistinctSignals(utterance, history)`: each distinct tag once, in first-appearance order, utterance tags first |
| Inference.InitialScores | src/inference.ts:76-79 | each intent's initial log score is the log of its prior plus its history boost |
| Inference.AddSignal | src/inference.ts:82-85 | each intent's score gains the log of the signal's likelihood, or of 1e-6 when the entry is missing |
| Inference.LogScores | src/inference.ts:76-86 | the nested loops give, per intent, log prior + boost + the sum over distinct signals of the log-likelihoods |
| Inference.SortedRange | src/inference.ts:88 | the in-place sort of the softmax output gives exactly its stable descending sort |
| Inference.Infer | src/inference.ts:63-96 | the method returns exactly `InferOf(...)`: the sorted posterior, the distinct signals and the note `signals=<n>, history=<m>` |
| Inference.InferRangeIsSortedDistribution | src/inference.ts:88 | the range is a permutation of the softmax output, sorted non-increasing, ties in intent order, strictly positive, 7 entries, sum 1 |
| Inference.InferSignals | src/inference.ts:71-72 | the returned signals have no repeats, start with the utterance's tags and contain exactly the tags of the utterance or of some history entry |
| Inference.PriorArguments | src/prior.ts:94-103 | every prior probability handed to the logarithm is the intent's weight over the weight total: neither the 0.05 floor nor the 1e-9 floor applies |
| Inference.PosteriorAsWeights | src/inference.ts:70-88 | under `LogLaws`, each posterior probability is the intent's prior weight times exp(history boost + signal log-likelihoods), over the sum of these products across intents |
| Inference.PosteriorFavoursGoingHome | src/inference.ts:63-88 | under `LogLaws`, with role, time, utterance and history fixed, the posterior gives GO_HOME strictly more and STAY strictly less under wlb than under pressure |
| Actions.CulturePolish | src/actions.ts:71-79 | the template is always a prefix; the result equals it exactly under balanced; pressure appends " (약속 이행 강조)"; wlb appends " (균형 존중 강조)" |
| Actions.FirstMatch | src/actions.ts:90-92 | the found entry matches (same action, some role keyword contained) and no earlier entry does; no result means no entry matches |
| Actions.RenderActionTemplate | src/actions.ts:85-100 | the result starts with the selected base sentence and is never empty |
| Actions.RenderUsesFirstMatch | src/actions.ts:90-95 | the first matching entry in table order supplies the sentence |
| Actions.RenderFallsBack | src/actions.ts:96-99 | with no match the generic sentence is polished instead |
| Actions.CapitalisedManagerFallsBack | src/actions.ts:91 | matching is case-sensitive: role "Manager" does not match "manager" and gets the generic sentence |
| Actions.TableOrderDecides | src/actions.ts:90-92 | a role naming a manager gets the manager's SOFT_GO sentence, which precedes the peer's in the table |
| Ev.BlendedRange | src/ev.ts:134-143 | same length and same intents in the same order; the input unchanged in exploit mode; in gto mode each probability p becomes 0.7p + 0.3/n for a range of n entries |
| Ev.Blend | src/ev.ts:138-142 | the blend keeps each entry's intent and position, and the total mass becomes 0.7 of the old total plus 0.3u for each of the n entries (so with u = 1/n a distribution stays a distribution) |
| Ev.BlendKeepsMass | src/ev.ts:134-143 | in gto mode the total becomes 0.7·total + 0.3, so a range summing to 1 still sums to 1 in either mode |
| Ev.KeyByIntent | src/ev.ts:156-159 | the accumulating loop builds exactly `ProbabilityMap(adjusted)` |
| Ev.LastEntryWins | src/ev.ts:156-159 | an intent reads the probability of its last entry in the range |
| Ev.MissingIntentReadsZero | src/ev.ts:163 | an intent absent from the range has no key, so it contributes 0 |
| Ev.RoundToInt | src/ev.ts:126 | the result is within 0.5 of x, and halves round away from zero |
| Ev.Round3 | src/ev.ts:179 | the rounded EV is a multiple of 0.001 within 0.0005 of the exact score, with a tie going away from zero, so it is the unique three-decimal rounding |
| Ev.RankActions | src/ev.ts:149-187 | blending, keying, scoring into an array and sorting it in place gives exactly `Ranked(...)` |
| Ev.RankedIsSortedPermutation | src/ev.ts:186 | 7 recommendations, a permutation of the catalog-order ones, sorted non-increasing by EV, with exact ties in catalog order |
| Ev.RankedCoversCatalog | src/ev.ts:161-184 | every catalog action appears among the recommendations |
| Ev.RankedBuiltFromCatalog | src/ev.ts:161-184 | each recommendation names a catalog action; its EV is that action's score rounded to 3 decimals; its rationale is built from the un-blended range and the action's tone; its template is `renderActionTemplate(role, action, culture)`; its intents are the first ≤3 un-blended entries |
| Ev.CultureBiasOnCatalog | src/ev.ts:102-116 | over the seven catalog actions: pressure gives STAY_FULL +0.25 and HARD_GO −0.2; wlb gives both GO actions +0.25 and both STAY actions −0.2; balanced gives CLARIFY +0.1; every other pair gets 0 |
| Ev.RelationshipWeightRanks | src/ev.ts:89-96 | a lookup table, not a property: the relationship weights rank subordinate < peer < family < partner < manager < client, all within [0.2, 0.7] |
| Ev.IntentScoreReadsFocusOnly | src/ev.ts:162-164 | the intent score depends only on the probabilities of the action's focus intents |
| Ev.IntentScoreWithoutEntries | src/ev.ts:163 | focus intents absent from the keyed range contribute nothing: with none keyed the intent score is 0 |
| Ev.HardGoIntentScore | src/ev.ts:20 | HARD_GO's intent score is p(GO_HOME) − 0.4·p(STAY) − 0.2·p(POWER_SIGNAL) |
| Ev.CultureEntersThroughBias | src/ev.ts:166-173 | two cultures change an action's score by exactly the difference of their biases; no other term depends on the culture |
| Ev.ToleranceShiftsEveryScore | src/ev.ts:172 | raising the tolerance by d raises every action's unrounded score by 0.1·d, so tolerance never changes how two unrounded scores compare |
| Ev.DescribeTopIntentsShape | src/ev.ts:122-128 | "N/A" for an empty range; one entry gives its `INTENT:pct%` item alone; two or more give the first two items joined by ", " (later entries are dropped); a non-empty summary opens with the top intent's name and a colon |
| Sorting.SortInPlace | src/ev.ts:186 | the in-place insertion sort leaves the array holding exactly the stable descending sort of its old contents |
| Sorting.SortPermutes | src/inference.ts:88 | sorting is a permutation |
| Sorting.SortSorts | src/inference.ts:88 | the sorted sequence is non-increasing by key |
| Sorting.SortStable | src/ev.ts:186 | the elements with any one key keep their relative order |
| Api.Clamp01 | src/api.ts:16 | the result lies in [0,1], is the identity on [0,1], and is 0 below and 1 above |
| Api.SanitizeProfile | src/api.ts:22-32 | no profile gives the default as is, unclamped; otherwise each numeric field is the clamp of the incoming value, or of the default when missing, hence in [0,1] for numeric fields; the relationship is the incoming one or the default |
| Api.SanitizeFieldRules | src/api.ts:26-31 | for each of the three numeric fields: a present in-range value is kept; a missing value takes the clamped default; a value above 1 becomes 1 and one below 0 becomes 0 |
| Api.SanitizeRoundTrip | src/api.ts:26-31 | a complete in-range profile passes through unchanged; an empty override gives the clamped default |
| Api.SanitizeIdempotent | src/api.ts:22-32 | with an in-range default every result is in range, and sanitizing a result again changes nothing |
| Api.EnsureHistory | src/api.ts:38-41 | no history gives []; otherwise a string is kept iff it was an entry |
| Api.StringsAppend | src/api.ts:40 | the filter keeps order: filtering a concatenation concatenates the filtered parts |
| Api.StringsCount | src/api.ts:40 | exactly the non-string entries are dropped; an all-string history passes through unchanged |
| Api.ValidateBody | src/api.ts:47-52 | no message iff role, time_context and utterance are all non-empty; otherwise the message names the first missing field in that order |
| Api.MissingRoleRejected | tests/api.spec.ts:14-21 | a body without a role, or with an empty one, is rejected with "role is required" |

## Left out

- The HTTP layer is not part of this model: `createApp`, the routes, status codes, JSON serialisation and `src/index.ts` are network I/O.
- `src/config.ts` is not part of this model. It reads environment variables and parses them with `Number()`. The weight configuration, the strategy mode and the default profile are parameters instead.
- Floating point: probabilities, weights and scores are exact reals. `Math.exp` and `Math.log` are parameters. Only positivity and `exp(0) == 1` are assumed, plus the two `LogLaws` in the culture-on-posterior lemmas; these hold of the real functions but only approximately of binary64 `Math.exp`/`Math.log`.
- The scenario outcomes of tests/inference.spec.ts are not modelled. They depend on exact exponentials and on the contents of the unseen likelihood JSON file, which is a parameter here.
- Ev.Round3: `toFixed(3)` is modelled as exact rounding half away from zero on reals. It does not reproduce binary64 representation error, nor the `-0` that `toFixed` can print.
- Ev.DescribeTopIntentsShape: each item is stated as `DescribeIntent` of its entry; no lemma states the percentage digits beyond their definition through `IntToString`.
- Ev.ToleranceShiftsEveryScore: the ranking compares EVs rounded to three decimals, and a uniform shift of the unrounded scores can create or break a tie after rounding (0.00045 and 0.00065 round apart, 0.00055 and 0.00075 both round to 0.001), so the order of the recommendations is not claimed to be independent of the tolerance.
- Regular expressions are literal substring tests. `우리\s*` reduces to containing 우리, and `까\?` is subsumed by `\?`.
- `toLowerCase` and `trim` are modelled on ASCII letters and a fixed whitespace set. Korean text has no case, and other Unicode case mappings are not modelled.
- Culture modes and relationships are closed datatypes. A string outside them cannot be expressed in the model: the source would treat an unknown culture as balanced, and an unknown relationship (which `sanitizeProfile` passes through unvalidated) would give a `NaN` EV.
- Api.EnsureHistory: non-string entries are a single `NonText` case; what they were is not modelled.
- Api.EnsureHistory: a `history` that is present and truthy but not an array (a string, a number, an object) cannot be expressed; in the source `filter` is then missing or not a function and the call throws.
- Api.SanitizeProfile: non-number profile fields are not modelled; for a field such as `"abc"` the source's `clamp01` returns `NaN`, so the result is in [0,1] only for numeric input.
- Api.ValidateBody: fields are optional strings. A non-string value the JSON body might carry is not modelled.
