/** Posterior assembly (src/inference.ts): log-prior plus history boost plus
    the log-likelihood of every distinct signal, turned into a distribution by
    softmax and sorted by probability. `Math.exp` and `Math.log` are the
    parameters `exp` and `ln`; `exp`'s positivity and `exp(0) == 1` are
    assumed of them, and the lemmas about the culture's effect on the
    posterior also assume the two laws `LogLaws` names. */
module Inference {
  import opened Types
  import opened Text
  import opened Sorting
  import opened Signals
  import opened Prior

  /** What the model relies on about `Math.exp`. */
  ghost predicate ExpLaws(exp: real -> real)
  {
    (forall x :: exp(x) > 0.0) && exp(0.0) == 1.0
  }

  /** `exp(a + b)`, named so that the product law below is used only where a
      proof asks for it. */
  ghost function ExpOfSum(exp: real -> real, a: real, b: real): real
  {
    exp(a + b)
  }

  /** Two further laws of `Math.exp` and `Math.log`, assumed only by the
      lemmas that name them: `exp` turns sums into products, and undoes `ln`
      on positive arguments. */
  ghost predicate LogLaws(exp: real -> real, ln: real -> real)
  {
    && (forall a, b {:trigger ExpOfSum(exp, a, b)} :: ExpOfSum(exp, a, b) == exp(a) * exp(b))
    && (forall x :: x > 0.0 ==> exp(ln(x)) == x)
  }

  /** The smallest argument `asLog` passes to the logarithm. */
  const LogFloor: real := 0.000000001

  /** The likelihood used for an intent a vector lacks. */
  const MissingLikelihood: real := 0.000001

  /** `Math.max(value, 1e-9)`. */
  function LogArgument(value: real): (r: real)
    ensures r >= LogFloor
    ensures value >= LogFloor ==> r == value
    ensures value < LogFloor ==> r == LogFloor
  {
    if value > LogFloor then value else LogFloor
  }

  /** `asLog`: the logarithm of the value, raised to at least 1e-9 first. */
  function AsLog(ln: real -> real, value: real): real
  {
    ln(LogArgument(value))
  }

  /** `Math.max(...scores)`. */
  function MaxOf(s: seq<real>): (m: real)
    requires |s| > 0
    ensures forall k :: 0 <= k < |s| ==> s[k] <= m
    ensures exists k :: 0 <= k < |s| && s[k] == m
  {
    if |s| == 1 then s[0]
    else
      var m := MaxOf(s[..|s| - 1]);
      if s[|s| - 1] > m then s[|s| - 1] else m
  }

  /** The shifted exponentials `exp(score - max)`. */
  function Exps(exp: real -> real, scores: seq<real>): (e: seq<real>)
    requires |scores| > 0
    ensures |e| == |scores|
    ensures forall k :: 0 <= k < |scores| ==> e[k] == exp(scores[k] - MaxOf(scores))
  {
    var m := MaxOf(scores);
    seq(|scores|, k requires 0 <= k < |scores| => exp(scores[k] - m))
  }

  /** `softmax` over a score vector in intent order. */
  function Softmax(exp: real -> real, scores: seq<real>): seq<IntentProb>
    requires ExpLaws(exp) && |scores| == IntentCount
  {
    SoftmaxDenominator(exp, scores);
    Proportions(Exps(exp, scores))
  }

  /** The softmax denominator is at least 1: the maximal score contributes
      `exp(0) == 1` and every other term is positive. */
  lemma SoftmaxDenominator(exp: real -> real, scores: seq<real>)
    requires ExpLaws(exp) && |scores| > 0
    ensures Sum(Exps(exp, scores)) >= 1.0
  {
    var m := MaxOf(scores);
    var k :| 0 <= k < |scores| && scores[k] == m;
    SumOfPositives(Exps(exp, scores), k);
  }

  /** Softmax yields one positive entry per intent in the fixed order, with
      total mass 1. */
  lemma SoftmaxIsDistribution(exp: real -> real, scores: seq<real>)
    requires ExpLaws(exp) && |scores| == IntentCount
    ensures InIntentOrder(Softmax(exp, scores))
    ensures forall k :: 0 <= k < IntentCount ==> Softmax(exp, scores)[k].probability > 0.0
    ensures Total(Softmax(exp, scores)) == 1.0
  {
    ProportionsAreDistribution(Exps(exp, scores));
  }

  /** The three history cues, checked once against the joined, lowercased history. */
  predicate OvertimeCue(joined: string)
  {
    Contains(joined, "야근") || Contains(joined, "late")
  }

  predicate ApologyCue(joined: string)
  {
    Contains(joined, "미안") || Contains(joined, "죄송")
  }

  predicate HelpCue(joined: string)
  {
    Contains(joined, "도와")
  }

  /** `history.join(' ').toLowerCase()`. */
  function JoinedHistory(history: seq<string>): string
  {
    Lower(Join(history, " "))
  }

  /** What `normaliseHistoryBoost` returns for intent `i`. */
  function BoostOf(history: seq<string>, i: Intent): real
  {
    var joined := JoinedHistory(history);
    match i
    case Stay => if OvertimeCue(joined) then 0.1 else 0.0
    case GoHome => if ApologyCue(joined) then 0.1 else 0.0
    case HelpSeek => (if ApologyCue(joined) then 0.05 else 0.0) + (if HelpCue(joined) then 0.15 else 0.0)
    case _ => 0.0
  }

  /** `normaliseHistoryBoost`: a zeroed record, raised by each cue present. */
  method HistoryBoost(history: seq<string>) returns (boost: array<real>)
    ensures fresh(boost) && boost.Length == IntentCount
    ensures forall k :: 0 <= k < IntentCount ==> boost[k] == BoostOf(history, Intents[k])
  {
    boost := new real[IntentCount](_ => 0.0);
    var joined := Lower(Join(history, " "));
    if Contains(joined, "야근") || Contains(joined, "late") {
      boost[Index(Stay)] := boost[Index(Stay)] + 0.1;
    }
    if Contains(joined, "미안") || Contains(joined, "죄송") {
      boost[Index(GoHome)] := boost[Index(GoHome)] + 0.1;
      boost[Index(HelpSeek)] := boost[Index(HelpSeek)] + 0.05;
    }
    if Contains(joined, "도와") {
      boost[Index(HelpSeek)] := boost[Index(HelpSeek)] + 0.15;
    }
  }

  /** Only STAY, GO_HOME and HELP_SEEK are ever boosted, each cue counting
      once however often it recurs. */
  lemma BoostValues(history: seq<string>, i: Intent)
    ensures BoostOf(history, Stay) in {0.0, 0.1}
    ensures BoostOf(history, GoHome) in {0.0, 0.1}
    ensures BoostOf(history, HelpSeek) in {0.0, 0.05, 0.15, 0.2}
    ensures i !in {Stay, GoHome, HelpSeek} ==> BoostOf(history, i) == 0.0
  {
  }

  /** An empty history boosts nothing. */
  lemma EmptyHistoryNoBoost(i: Intent)
    ensures BoostOf([], i) == 0.0
  {
    var joined := JoinedHistory([]);
    assert |joined| == 0;
    assert !OccursAt(joined, "야근", 0) && !OccursAt(joined, "late", 0);
    assert !OccursAt(joined, "미안", 0) && !OccursAt(joined, "죄송", 0);
    assert !OccursAt(joined, "도와", 0);
  }

  /** An overtime mention in any one history entry earns the STAY boost. */
  lemma OvertimeInAnyEntry(history: seq<string>, k: nat)
    requires k < |history| && Contains(history[k], "야근")
    ensures BoostOf(history, Stay) == 0.1
  {
    ContainsJoin(history, " ", k, "야근");
    ContainsLower(Join(history, " "), "야근");
    assert Lower("야근") == "야근";
  }

  /** `history.flatMap(extractSignals)`. */
  function HistorySignals(history: seq<string>): seq<string>
  {
    if history == [] then []
    else HistorySignals(history[..|history| - 1]) + SignalsOf(history[|history| - 1])
  }

  /** `Array.from(new Set(signals))`: the first occurrence of each tag, in order. */
  function Dedup(s: seq<string>): seq<string>
  {
    if s == [] then [] else AddTag(Dedup(s[..|s| - 1]), s[|s| - 1])
  }

  lemma {:induction false} HistorySignalsMembership(history: seq<string>, t: string)
    ensures t in HistorySignals(history) <==> exists j :: 0 <= j < |history| && t in SignalsOf(history[j])
  {
    if history != [] {
      var n := |history| - 1;
      HistorySignalsMembership(history[..n], t);
      assert forall j :: 0 <= j < n ==> history[..n][j] == history[j];
    }
  }

  /** The deduplicated list holds each tag of the input exactly once. */
  lemma {:induction false} DedupKeepsEachOnce(s: seq<string>)
    ensures NoDuplicates(Dedup(s))
    ensures forall t :: t in Dedup(s) <==> t in s
  {
    if s != [] {
      var n := |s| - 1;
      DedupKeepsEachOnce(s[..n]);
      assert s == s[..n] + [s[n]];
    }
  }

  /** Deduplicating a longer list extends the shorter one's result: tags are
      kept in order of first appearance. */
  lemma {:induction false} DedupPrefix(a: seq<string>, b: seq<string>)
    ensures |Dedup(a)| <= |Dedup(a + b)|
    ensures Dedup(a + b)[..|Dedup(a)|] == Dedup(a)
    decreases |b|
  {
    if b == [] {
      assert a + b == a;
    } else {
      var n := |b| - 1;
      assert a + b == (a + b[..n]) + [b[n]];
      DedupPrefix(a, b[..n]);
    }
  }

  /** A list without duplicates is its own deduplication. */
  lemma {:induction false} DedupOfDistinct(s: seq<string>)
    requires NoDuplicates(s)
    ensures Dedup(s) == s
  {
    if s != [] {
      var n := |s| - 1;
      DedupOfDistinct(s[..n]);
    }
  }

  /** `likelihood[intent] ?? 1e-6`. */
  function LikelihoodOr(likelihood: map<Intent, real>, i: Intent): real
  {
    if i in likelihood then likelihood[i] else MissingLikelihood
  }

  /** The log-likelihood contributions of `signals` to intent `i`, summed in
      list order. */
  function SignalTerms(table: LikelihoodTable, ln: real -> real, signals: seq<string>, i: Intent): real
    requires Question in table
  {
    if signals == [] then 0.0
    else
      SignalTerms(table, ln, signals[..|signals| - 1], i)
      + AsLog(ln, LikelihoodOr(LikelihoodFor(table, signals[|signals| - 1]), i))
  }

  /** The final log score of intent `k`: log prior, history boost and the
      distinct signals' log-likelihoods. */
  function LogScore(table: LikelihoodTable, ln: real -> real, priorDist: seq<IntentProb>,
                    history: seq<string>, signals: seq<string>, k: nat): real
    requires Question in table && k < |priorDist|
  {
    AsLog(ln, priorDist[k].probability) + BoostOf(history, priorDist[k].intent)
    + SignalTerms(table, ln, signals, priorDist[k].intent)
  }

  /** What `infer` returns. */
  datatype RangeResult = RangeResult(range: seq<IntentProb>, signals: seq<string>, note: string)

  /** The note `signals=<distinct signals>, history=<history entries>`. */
  function Note(signalCount: nat, historyCount: nat): string
  {
    "signals=" + NatToString(signalCount) + ", history=" + NatToString(historyCount)
  }

  /** The distinct signals of the utterance, then of each history entry. */
  function DistinctSignals(utterance: string, history: seq<string>): seq<string>
  {
    Dedup(SignalsOf(utterance) + HistorySignals(history))
  }

  /** The unsorted posterior. */
  function Posterior(table: LikelihoodTable, exp: real -> real, ln: real -> real, role: string,
                     timeContext: string, culture: CultureMode, utterance: string, history: seq<string>): seq<IntentProb>
    requires ExpLaws(exp) && Question in table
  {
    var priorDist := PriorOf(role, timeContext, culture);
    PriorIsDistribution(role, timeContext, culture);
    var signals := DistinctSignals(utterance, history);
    Softmax(exp, seq(IntentCount, k requires 0 <= k < IntentCount => LogScore(table, ln, priorDist, history, signals, k)))
  }

  /** What `infer` returns, as a function of its inputs. */
  function InferOf(table: LikelihoodTable, exp: real -> real, ln: real -> real, role: string,
                   timeContext: string, culture: CultureMode, utterance: string, history: seq<string>): RangeResult
    requires ExpLaws(exp) && Question in table
  {
    var signals := DistinctSignals(utterance, history);
    RangeResult(
      SortDesc(Posterior(table, exp, ln, role, timeContext, culture, utterance, history), ProbabilityOf),
      signals,
      Note(|signals|, |history|))
  }

  /** The flattened signal lists of the history entries, one entry at a time. */
  method CollectHistorySignals(history: seq<string>) returns (signals: seq<string>)
    ensures signals == HistorySignals(history)
  {
    signals := [];
    for j := 0 to |history|
      invariant signals == HistorySignals(history[..j])
    {
      var tags := ExtractSignals(history[j]);
      assert history[..j + 1][..j] == history[..j];
      signals := signals + tags;
    }
    assert history[..|history|] == history;
  }

  /** Adds one signal's log-likelihood to every intent's score. */
  method AddSignal(logScores: array<real>, table: LikelihoodTable, ln: real -> real, signal: string)
    requires logScores.Length == IntentCount && Question in table
    modifies logScores
    ensures forall k :: 0 <= k < IntentCount ==>
              logScores[k] == old(logScores[k]) + AsLog(ln, LikelihoodOr(LikelihoodFor(table, signal), Intents[k]))
  {
    var likelihood := LikelihoodFor(table, signal);
    for k := 0 to IntentCount
      invariant forall j :: 0 <= j < k ==>
                  logScores[j] == old(logScores[j]) + AsLog(ln, LikelihoodOr(likelihood, Intents[j]))
      invariant forall j :: k <= j < IntentCount ==> logScores[j] == old(logScores[j])
    {
      logScores[k] := logScores[k] + AsLog(ln, LikelihoodOr(likelihood, Intents[k]));
    }
  }

  /** The log prior plus the history boost of each intent (the `reduce` over
      the prior's entries, keyed by their intents). */
  method InitialScores(ln: real -> real, priorDist: seq<IntentProb>, boost: array<real>, ghost history: seq<string>)
    returns (logScores: array<real>)
    requires InIntentOrder(priorDist) && boost.Length == IntentCount
    requires forall k :: 0 <= k < IntentCount ==> boost[k] == BoostOf(history, Intents[k])
    ensures fresh(logScores) && logScores.Length == IntentCount
    ensures forall j :: 0 <= j < IntentCount ==>
              logScores[j] == AsLog(ln, priorDist[j].probability) + BoostOf(history, Intents[j])
  {
    logScores := new real[IntentCount];
    for k := 0 to IntentCount
      invariant forall j :: 0 <= j < k ==>
                  logScores[j] == AsLog(ln, priorDist[j].probability) + BoostOf(history, Intents[j])
    {
      var i := priorDist[k].intent;
      IndexOfListed(k);
      logScores[Index(i)] := AsLog(ln, priorDist[k].probability) + boost[Index(i)];
    }
  }

  /** The final log scores in intent order: the initial scores, then one
      pass over the intents for each distinct signal. */
  method LogScores(table: LikelihoodTable, ln: real -> real, priorDist: seq<IntentProb>, boost: array<real>,
                   ghost history: seq<string>, signals: seq<string>)
    returns (scores: seq<real>)
    requires Question in table && InIntentOrder(priorDist) && boost.Length == IntentCount
    requires forall k :: 0 <= k < IntentCount ==> boost[k] == BoostOf(history, Intents[k])
    ensures scores == seq(IntentCount, k requires 0 <= k < IntentCount => LogScore(table, ln, priorDist, history, signals, k))
  {
    var logScores := InitialScores(ln, priorDist, boost, history);
    for n := 0 to |signals|
      invariant forall j :: 0 <= j < IntentCount ==>
                  logScores[j] == LogScore(table, ln, priorDist, history, signals[..n], j)
    {
      AddSignal(logScores, table, ln, signals[n]);
      assert signals[..n + 1][..n] == signals[..n];
    }
    assert signals[..|signals|] == signals;
    scores := logScores[..];
  }

  /** The distinct signals of the utterance and then of the history entries. */
  method CollectSignals(utterance: string, history: seq<string>) returns (signals: seq<string>)
    ensures signals == DistinctSignals(utterance, history)
  {
    var fromUtterance := ExtractSignals(utterance);
    var fromHistory := CollectHistorySignals(history);
    signals := Dedup(fromUtterance + fromHistory);
  }

  /** `softmax(logScores).sort(...)`: the softmax entries in a fresh array,
      sorted in place by descending probability. */
  method SortedRange(exp: real -> real, scores: seq<real>) returns (range: seq<IntentProb>)
    requires ExpLaws(exp) && |scores| == IntentCount
    ensures range == SortDesc(Softmax(exp, scores), ProbabilityOf)
  {
    var entries := new IntentProb[IntentCount](k requires 0 <= k < IntentCount => Softmax(exp, scores)[k]);
    assert entries[..] == Softmax(exp, scores);
    SortInPlace(entries, ProbabilityOf);
    range := entries[..];
  }

  /** `infer`: prior, distinct signals, history boost, log scores, softmax,
      then a stable sort by descending probability. */
  method Infer(table: LikelihoodTable, exp: real -> real, ln: real -> real, role: string,
               timeContext: string, culture: CultureMode, utterance: string, history: seq<string>)
    returns (result: RangeResult)
    requires ExpLaws(exp) && Question in table
    ensures result == InferOf(table, exp, ln, role, timeContext, culture, utterance, history)
  {
    var priorDist := ComputePrior(role, timeContext, culture);
    PriorIsDistribution(role, timeContext, culture);
    var signals := CollectSignals(utterance, history);
    var boost := HistoryBoost(history);

    var scores := LogScores(table, ln, priorDist, boost, history, signals);
    var range := SortedRange(exp, scores);
    result := RangeResult(range, signals, Note(|signals|, |history|));
  }

  /** The returned range is the posterior reordered: a permutation of it,
      sorted by non-increasing probability with ties in intent order, every
      entry positive and the total mass 1. */
  lemma InferRangeIsSortedDistribution(table: LikelihoodTable, exp: real -> real, ln: real -> real, role: string,
                                       timeContext: string, culture: CultureMode, utterance: string, history: seq<string>)
    requires ExpLaws(exp) && Question in table
    ensures var posterior := Posterior(table, exp, ln, role, timeContext, culture, utterance, history);
            var range := InferOf(table, exp, ln, role, timeContext, culture, utterance, history).range;
            && multiset(range) == multiset(posterior)
            && SortedDesc(range, ProbabilityOf)
            && (forall v :: WithKey(range, ProbabilityOf, v) == WithKey(posterior, ProbabilityOf, v))
            && (forall k :: 0 <= k < |range| ==> range[k].probability > 0.0)
            && |range| == IntentCount && Total(range) == 1.0
  {
    var posterior := Posterior(table, exp, ln, role, timeContext, culture, utterance, history);
    var range := InferOf(table, exp, ln, role, timeContext, culture, utterance, history).range;
    var priorDist := PriorOf(role, timeContext, culture);
    PriorIsDistribution(role, timeContext, culture);
    var signals := DistinctSignals(utterance, history);
    SoftmaxIsDistribution(exp, seq(IntentCount, k requires 0 <= k < IntentCount => LogScore(table, ln, priorDist, history, signals, k)));
    SortPermutes(posterior, ProbabilityOf);
    SortSorts(posterior, ProbabilityOf);
    forall v
      ensures WithKey(range, ProbabilityOf, v) == WithKey(posterior, ProbabilityOf, v)
    {
      SortStable(posterior, ProbabilityOf, v);
    }
    TotalPermutation(range, posterior);
    forall k | 0 <= k < |range|
      ensures range[k].probability > 0.0
    {
      assert range[k] in multiset(posterior);
    }
  }

  /** The reported signals are those of the utterance, in check order, then
      each further tag of the history entries, every tag exactly once. */
  lemma InferSignals(table: LikelihoodTable, exp: real -> real, ln: real -> real, role: string,
                     timeContext: string, culture: CultureMode, utterance: string, history: seq<string>)
    requires ExpLaws(exp) && Question in table
    ensures var signals := InferOf(table, exp, ln, role, timeContext, culture, utterance, history).signals;
            && NoDuplicates(signals)
            && |SignalsOf(utterance)| <= |signals|
            && signals[..|SignalsOf(utterance)|] == SignalsOf(utterance)
            && forall t :: t in signals <==>
                 t in SignalsOf(utterance) || exists j :: 0 <= j < |history| && t in SignalsOf(history[j])
  {
    var own := SignalsOf(utterance);
    var all := own + HistorySignals(history);
    DedupKeepsEachOnce(all);
    DedupPrefix(own, HistorySignals(history));
    var _ := SignalsCharacterised(utterance);
    DedupOfDistinct(own);
    forall t
      ensures t in Dedup(all) <==> t in own || exists j :: 0 <= j < |history| && t in SignalsOf(history[j])
    {
      HistorySignalsMembership(history, t);
    }
  }

  /** Under "wlb" the posterior gives GO_HOME a strictly higher and STAY a
      strictly lower probability than under "pressure", for the same role,
      time, utterance and history: the culture moves only the prior, and
      it raises GO_HOME's prior weight against every other intent and lowers
      STAY's. */
  lemma PosteriorFavoursGoingHome(table: LikelihoodTable, exp: real -> real, ln: real -> real, role: string,
                                  timeContext: string, utterance: string, history: seq<string>)
    requires ExpLaws(exp) && LogLaws(exp, ln) && Question in table
    ensures Posterior(table, exp, ln, role, timeContext, Wlb, utterance, history)[Index(GoHome)].probability
            > Posterior(table, exp, ln, role, timeContext, Pressure, utterance, history)[Index(GoHome)].probability
    ensures Posterior(table, exp, ln, role, timeContext, Wlb, utterance, history)[Index(Stay)].probability
            < Posterior(table, exp, ln, role, timeContext, Pressure, utterance, history)[Index(Stay)].probability
  {
    var signals := DistinctSignals(utterance, history);
    var beta := seq(IntentCount, k requires 0 <= k < IntentCount =>
                      BoostOf(history, Intents[k]) + SignalTerms(table, ln, signals, Intents[k]));
    var e := seq(IntentCount, k requires 0 <= k < IntentCount => exp(beta[k]));
    var ww := Weights(role, timeContext, Wlb);
    var wp := Weights(role, timeContext, Pressure);
    PosteriorAsWeights(table, exp, ln, role, timeContext, Wlb, utterance, history, beta, e);
    PosteriorAsWeights(table, exp, ln, role, timeContext, Pressure, utterance, history, beta, e);
    WeightsAboveHalf(role, timeContext, Wlb);
    WeightsAboveHalf(role, timeContext, Pressure);
    CultureCross(role, timeContext);
    ShareGrows(wp, ww, e, 0, 1);
    ShareGrows(ww, wp, e, 1, 0);
  }

  /** The posterior's share of intent `k` is its prior weight times
      `exp(beta[k])`, over the same products summed: the normalisation of the
      prior and the softmax shift both cancel. */
  lemma PosteriorAsWeights(table: LikelihoodTable, exp: real -> real, ln: real -> real, role: string,
                           timeContext: string, culture: CultureMode, utterance: string, history: seq<string>,
                           beta: seq<real>, e: seq<real>)
    requires ExpLaws(exp) && LogLaws(exp, ln) && Question in table
    requires |beta| == IntentCount && |e| == IntentCount
    requires forall k :: 0 <= k < IntentCount ==>
               beta[k] == BoostOf(history, Intents[k]) + SignalTerms(table, ln, DistinctSignals(utterance, history), Intents[k])
               && e[k] == exp(beta[k])
    ensures Sum(Weighted(Weights(role, timeContext, culture), e)) > 0.0
    ensures var w := Weights(role, timeContext, culture);
            forall k :: 0 <= k < IntentCount ==>
              Posterior(table, exp, ln, role, timeContext, culture, utterance, history)[k].probability
              == WeightedShare(w, e, k)
  {
    var w := Weights(role, timeContext, culture);
    var priorDist := PriorOf(role, timeContext, culture);
    var signals := DistinctSignals(utterance, history);
    PriorIsDistribution(role, timeContext, culture);
    WeightsAboveHalf(role, timeContext, culture);
    PriorArguments(role, timeContext, culture);
    var q := seq(IntentCount, k requires 0 <= k < IntentCount => LogArgument(priorDist[k].probability));
    var scores := seq(IntentCount, k requires 0 <= k < IntentCount => LogScore(table, ln, priorDist, history, signals, k));
    forall k | 0 <= k < IntentCount
      ensures scores[k] == ln(q[k]) + beta[k]
    {
      assert priorDist[k].intent == Intents[k];
    }
    SoftmaxOfLogWeights(exp, ln, scores, q, w, Sum(w), beta, e);
  }

  /** The argument of every prior logarithm is the intent's weight over the
      weight total: all weights are at least 0.5, so neither the 0.05 floor of
      the prior nor the 1e-9 floor of the logarithm applies. */
  lemma PriorArguments(role: string, timeContext: string, culture: CultureMode)
    ensures Sum(Weights(role, timeContext, culture)) > 0.0
    ensures var w := Weights(role, timeContext, culture);
            forall k :: 0 <= k < IntentCount ==>
              LogArgument(PriorOf(role, timeContext, culture)[k].probability) == w[k] / Sum(w)
  {
    WeightsAboveHalf(role, timeContext, culture);
    WeightsBelowThree(role, timeContext, culture);
    NormalizedArguments(Weights(role, timeContext, culture));
  }

  /** For weights of at least 0.5 totalling at most 21, `Normalized` keeps
      every weight and each share clears the logarithm's floor. */
  lemma NormalizedArguments(w: seq<real>)
    requires |w| == IntentCount && Sum(w) <= 21.0
    requires forall k :: 0 <= k < IntentCount ==> w[k] >= 0.5
    requires FlooredAll(w) == w
    ensures Sum(w) > 0.0
    ensures forall k :: 0 <= k < IntentCount ==> LogArgument(Normalized(w)[k].probability) == w[k] / Sum(w)
  {
    SumOfPositives(w, 0);
    forall k | 0 <= k < IntentCount
      ensures LogArgument(Normalized(w)[k].probability) == w[k] / Sum(w)
    {
      assert Normalized(w)[k].probability == w[k] / Sum(w);
      PriorShare(w[k], Sum(w));
    }
  }

  /** A share `a / total`, for a weight of at least 0.5 out of a total of at
      most 21, lies above the logarithm's floor. */
  lemma PriorShare(a: real, total: real)
    requires a >= 0.5 && 0.0 < total <= 21.0
    ensures a / total >= LogFloor
  {
    FractionOrder(LogFloor, 1.0, a, total);
  }

  /** The softmax of `ln(q[k]) + beta[k]`, where `q[k]` is `w[k]` over a
      common positive `total`, gives intent `k` the share of `w[k] * exp(beta[k])`
      in the sum of those products. */
  lemma SoftmaxOfLogWeights(exp: real -> real, ln: real -> real, scores: seq<real>, q: seq<real>, w: seq<real>,
                            total: real, beta: seq<real>, e: seq<real>)
    requires ExpLaws(exp) && LogLaws(exp, ln)
    requires |scores| == IntentCount && |q| == IntentCount && |w| == IntentCount
    requires |beta| == IntentCount && |e| == IntentCount
    requires total > 0.0
    requires forall k :: 0 <= k < IntentCount ==>
               w[k] > 0.0 && q[k] == w[k] / total && e[k] == exp(beta[k]) && scores[k] == ln(q[k]) + beta[k]
    ensures Sum(Weighted(w, e)) > 0.0
    ensures forall k :: 0 <= k < IntentCount ==>
              Softmax(exp, scores)[k].probability == WeightedShare(w, e, k)
  {
    var m := MaxOf(scores);
    var shift := exp(-m);
    var c := shift / total;
    var x := Exps(exp, scores);
    ShiftedExps(exp, ln, scores, q, w, total, beta, e, m, shift, c, x);
    ScaledProportions(x, w, e, c);
  }

  /** Every shifted exponential `x[k] == exp(scores[k] - m)` is
      `w[k] * exp(beta[k])` times the one factor `exp(-m) / total`. */
  lemma ShiftedExps(exp: real -> real, ln: real -> real, scores: seq<real>, q: seq<real>, w: seq<real>, total: real,
                    beta: seq<real>, e: seq<real>, m: real, shift: real, c: real, x: seq<real>)
    requires ExpLaws(exp) && LogLaws(exp, ln)
    requires |scores| == IntentCount && |q| == IntentCount && |w| == IntentCount
    requires |beta| == IntentCount && |e| == IntentCount
    requires total > 0.0 && shift == exp(-m) && c == shift / total
    requires forall k :: 0 <= k < IntentCount ==>
               w[k] > 0.0 && q[k] == w[k] / total && e[k] == exp(beta[k]) && scores[k] == ln(q[k]) + beta[k]
    requires |x| == IntentCount && forall k :: 0 <= k < IntentCount ==> x[k] == exp(scores[k] - m)
    ensures c > 0.0
    ensures forall k :: 0 <= k < IntentCount ==> x[k] == c * Weighted(w, e)[k]
  {
    assert shift > 0.0;
    forall k | 0 <= k < IntentCount
      ensures x[k] == c * Weighted(w, e)[k]
    {
      assert q[k] > 0.0;
      assert scores[k] - m == ln(q[k]) + (beta[k] - m);
      assert ExpOfSum(exp, ln(q[k]), beta[k] - m) == exp(ln(q[k])) * exp(beta[k] - m);
      assert beta[k] - m == beta[k] + -m;
      assert ExpOfSum(exp, beta[k], -m) == e[k] * shift;
      assert exp(scores[k] - m) == q[k] * (e[k] * shift);
    }
  }
}
