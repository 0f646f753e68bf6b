/** Expected-value ranking of the seven candidate actions (src/ev.ts). The
    weight configuration and the strategy mode, read from the environment by
    the source, are parameters here. */
module Ev {
  import opened Types
  import opened Text
  import opened Sorting
  import opened Actions

  /** `WEIGHT_CONFIG`. */
  datatype WeightConfig = WeightConfig(time: real, relationship: real, task: real, future: real)

  /** `STRATEGY_MODE`. */
  datatype StrategyMode = Gto | Exploit

  /** One `intentFocus` entry; the entries keep the literal's key order. */
  datatype FocusWeight = FocusWeight(intent: Intent, weight: real)

  datatype ActionDefinition = ActionDefinition(
    action: string, caption: string, intentFocus: seq<FocusWeight>,
    timeSlope: real, relationshipSlope: real, taskSlope: real, futureSlope: real, tone: string)

  /** `ACTION_DEFINITIONS`, in catalog order. */
  const Catalog: seq<ActionDefinition> := [
    ActionDefinition("HARD_GO", "단호하게 퇴근 선언",
      [FocusWeight(GoHome, 1.0), FocusWeight(Stay, -0.4), FocusWeight(PowerSignal, -0.2)],
      -0.2, -0.1, -0.3, 0.2, "단호/명확"),
    ActionDefinition("SOFT_GO", "완곡한 철수 제안",
      [FocusWeight(GoHome, 0.8), FocusWeight(SmallTalk, 0.2), FocusWeight(HelpSeek, 0.3)],
      -0.1, 0.2, -0.2, 0.3, "부드럽고 협조적"),
    ActionDefinition("STAY_SHORT", "짧게 머무르기",
      [FocusWeight(Stay, 0.6), FocusWeight(HelpSeek, 0.2)],
      0.2, 0.1, 0.3, 0.1, "타협/실무적"),
    ActionDefinition("STAY_FULL", "끝까지 남기",
      [FocusWeight(Stay, 0.9), FocusWeight(PowerSignal, 0.2)],
      0.4, 0.3, 0.4, 0.2, "헌신/책임감"),
    ActionDefinition("CLARIFY", "의도 확인 질문",
      [FocusWeight(Neutral, 0.5), FocusWeight(TestBoundary, 0.4), FocusWeight(HelpSeek, 0.4)],
      0.1, 0.2, 0.1, 0.3, "탐색/메타대화"),
    ActionDefinition("CARE_SUPPORT", "정서적 지지 제공",
      [FocusWeight(SmallTalk, 0.4), FocusWeight(HelpSeek, 0.5), FocusWeight(Neutral, 0.2)],
      -0.1, 0.4, -0.1, 0.4, "공감/케어"),
    ActionDefinition("HELP_BRIDGE", "도움 연결 요청",
      [FocusWeight(HelpSeek, 0.7), FocusWeight(TestBoundary, 0.2), FocusWeight(SmallTalk, 0.1)],
      0.2, 0.3, 0.2, 0.4, "학습/협력")
  ]

  const CatalogSize: nat := 7

  /** `relationshipWeight`. */
  function RelationshipWeight(r: Relationship): real
  {
    match r
    case Peer => 0.3
    case Manager => 0.6
    case Subordinate => 0.2
    case Client => 0.7
    case Family => 0.4
    case Partner => 0.5
  }

  /** `cultureBias`. */
  function CultureBias(culture: CultureMode, action: string): real
  {
    match culture
    case Pressure =>
      if action == "STAY_FULL" then 0.25 else if action == "HARD_GO" then -0.2 else 0.0
    case Wlb =>
      if StartsWith(action, "STAY") then -0.2 else if Contains(action, "GO") then 0.25 else 0.0
    case Balanced =>
      if action == "CLARIFY" then 0.1 else 0.0
  }

  /** `blendedRange`: unchanged in exploit mode; otherwise each probability
      is pulled 30% of the way toward the uniform `1 / n`. */
  function BlendedRange(mode: StrategyMode, range: seq<IntentProb>): (r: seq<IntentProb>)
    ensures |r| == |range|
    ensures forall k :: 0 <= k < |r| ==> r[k].intent == range[k].intent
    ensures mode == Exploit ==> r == range
    ensures mode == Gto && |range| > 0 ==>
              forall k :: 0 <= k < |r| ==>
                r[k].probability == 0.7 * range[k].probability + 0.3 * (1.0 / |range| as real)
  {
    if mode == Exploit || |range| == 0 then range
    else Blend(range, 1.0 / |range| as real)
  }

  /** Each entry `p` becomes `0.7 p + 0.3 u`, so the total mass becomes 0.7
      of itself plus `0.3 u` per entry. */
  function Blend(range: seq<IntentProb>, uniform: real): (r: seq<IntentProb>)
    ensures |r| == |range|
    ensures forall k :: 0 <= k < |r| ==>
              r[k].intent == range[k].intent && r[k].probability == 0.7 * range[k].probability + 0.3 * uniform
    ensures Total(r) == 0.7 * Total(range) + |range| as real * (0.3 * uniform)
  {
    if range == [] then []
    else
      var n := |range| - 1;
      var front := Blend(range[..n], uniform);
      var last := IntentProb(range[n].intent, 0.7 * range[n].probability + 0.3 * uniform);
      BlendStep(Total(range[..n]), range[n].probability, n as real, |range| as real, uniform);
      TotalSnoc(front, last);
      front + [last]
  }

  /** Adding one entry to `Blend`'s total. */
  lemma BlendStep(t: real, p: real, n: real, m: real, u: real)
    requires m == n + 1.0
    ensures 0.7 * t + n * (0.3 * u) + (0.7 * p + 0.3 * u) == 0.7 * (t + p) + m * (0.3 * u)
  {
  }

  /** The total of a sequence with one more entry. */
  lemma TotalSnoc(d: seq<IntentProb>, x: IntentProb)
    ensures Total(d + [x]) == Total(d) + x.probability
  {
    assert (d + [x])[..|d|] == d;
  }

  /** The `reduce` that keys the blended range by intent: a later entry for
      the same intent overwrites an earlier one. */
  function ProbabilityMap(range: seq<IntentProb>): map<Intent, real>
  {
    if range == [] then map[]
    else ProbabilityMap(range[..|range| - 1])[range[|range| - 1].intent := range[|range| - 1].probability]
  }

  /** `topIntentMap[intent] ?? 0`. */
  function ProbabilityOr(m: map<Intent, real>, i: Intent): real
  {
    if i in m then m[i] else 0.0
  }

  /** `intentScore`: the focus weights times the looked-up probabilities,
      summed in key order. */
  function IntentScore(focus: seq<FocusWeight>, m: map<Intent, real>): real
  {
    if focus == [] then 0.0
    else IntentScore(focus[..|focus| - 1], m) + ProbabilityOr(m, focus[|focus| - 1].intent) * focus[|focus| - 1].weight
  }

  /** The unrounded EV score of one action. */
  function EvScore(config: WeightConfig, definition: ActionDefinition, profile: Profile,
                   culture: CultureMode, m: map<Intent, real>): real
  {
    IntentScore(definition.intentFocus, m)
    + config.time * definition.timeSlope * profile.taskUrgency
    + config.relationship * definition.relationshipSlope * RelationshipWeight(profile.relationship)
    + config.task * definition.taskSlope * profile.taskUrgency
    + config.future * definition.futureSlope * profile.futureImportance
    + profile.tolerance * 0.1
    + CultureBias(culture, definition.action)
  }

  /** `x.toFixed(0)` read as an integer: the nearest integer, halves
      rounded away from zero. */
  function RoundToInt(x: real): (n: int)
    ensures -0.5 <= n as real - x <= 0.5
    ensures x >= 0.0 ==> n as real - x > -0.5
    ensures x < 0.0 ==> n as real - x < 0.5
  {
    if x < 0.0 then -((-x + 0.5).Floor) else (x + 0.5).Floor
  }

  /** `Number(x.toFixed(3))` on exact reals: the nearest multiple of 0.001,
      halves rounded away from zero. */
  function Round3(x: real): (r: real)
    ensures -0.0005 <= r - x <= 0.0005
    ensures (r * 1000.0).Floor as real == r * 1000.0
    ensures x >= 0.0 ==> r - x > -0.0005
    ensures x < 0.0 ==> r - x < 0.0005
  {
    RoundToInt(x * 1000.0) as real / 1000.0
  }

  /** One `INTENT:pct%` item of the summary. */
  function DescribeIntent(p: IntentProb): string
  {
    IntentName(p.intent) + ":" + IntToString(RoundToInt(p.probability * 100.0)) + "%"
  }

  /** `describeTopIntents`: "N/A" for an empty range, otherwise the first two
      entries (or the only one), joined by ", ". */
  function DescribeTopIntents(range: seq<IntentProb>): string
  {
    if |range| == 0 then "N/A"
    else
      var top := range[..if |range| < 2 then |range| else 2];
      Join(seq(|top|, k requires 0 <= k < |top| => DescribeIntent(top[k])), ", ")
  }

  /** The rationale sentence built from the un-blended range and the tone. */
  function Rationale(range: seq<IntentProb>, tone: string): string
  {
    "상위 의도(" + DescribeTopIntents(range) + ")와 " + tone + " 톤 가정."
  }

  /** `ActionRec`. */
  datatype ActionRec = ActionRec(action: string, ev: real, rationale: string, intents: seq<IntentProb>, template: string)

  function EvOf(r: ActionRec): real
  {
    r.ev
  }

  /** The recommendation `ev` builds for one catalog entry, given the keyed
      blended probabilities. */
  function Recommend(config: WeightConfig, range: seq<IntentProb>, m: map<Intent, real>, profile: Profile,
                     culture: CultureMode, role: string, definition: ActionDefinition): ActionRec
  {
    ActionRec(
      definition.action,
      Round3(EvScore(config, definition, profile, culture, m)),
      Rationale(range, definition.tone),
      range[..if |range| < 3 then |range| else 3],
      RenderActionTemplate(role, definition.action, culture))
  }

  /** The recommendations in catalog order, before sorting. */
  function Recommendations(config: WeightConfig, mode: StrategyMode, range: seq<IntentProb>, profile: Profile,
                           culture: CultureMode, role: string): seq<ActionRec>
  {
    var m := ProbabilityMap(BlendedRange(mode, range));
    seq(CatalogSize, k requires 0 <= k < CatalogSize => Recommend(config, range, m, profile, culture, role, Catalog[k]))
  }

  /** What `ev` returns. */
  function Ranked(config: WeightConfig, mode: StrategyMode, range: seq<IntentProb>, profile: Profile,
                  culture: CultureMode, role: string): seq<ActionRec>
  {
    SortDesc(Recommendations(config, mode, range, profile, culture, role), EvOf)
  }

  /** `intentScore` reads only the focus intents: two keyed ranges that agree
      on them give the same score. */
  lemma {:induction false} IntentScoreReadsFocusOnly(focus: seq<FocusWeight>, m1: map<Intent, real>, m2: map<Intent, real>)
    requires forall j :: 0 <= j < |focus| ==> ProbabilityOr(m1, focus[j].intent) == ProbabilityOr(m2, focus[j].intent)
    ensures IntentScore(focus, m1) == IntentScore(focus, m2)
  {
    if focus != [] {
      IntentScoreReadsFocusOnly(focus[..|focus| - 1], m1, m2);
    }
  }

  /** Focus intents absent from the range contribute nothing: with none of
      them keyed the intent score is 0. */
  lemma {:induction false} IntentScoreWithoutEntries(focus: seq<FocusWeight>, m: map<Intent, real>)
    requires forall j :: 0 <= j < |focus| ==> focus[j].intent !in m
    ensures IntentScore(focus, m) == 0.0
  {
    if focus != [] {
      IntentScoreWithoutEntries(focus[..|focus| - 1], m);
    }
  }

  /** HARD_GO's intent score, written out from its focus weights. */
  lemma HardGoIntentScore(m: map<Intent, real>)
    ensures IntentScore(Catalog[0].intentFocus, m)
            == ProbabilityOr(m, GoHome) - 0.4 * ProbabilityOr(m, Stay) - 0.2 * ProbabilityOr(m, PowerSignal)
  {
    var focus := Catalog[0].intentFocus;
    assert |focus| == 3 && focus[..3] == focus;
    assert IntentScore(focus[..1], m) == ProbabilityOr(m, GoHome) * 1.0 by {
      assert focus[..1][..0] == [];
    }
    assert IntentScore(focus[..2], m) == IntentScore(focus[..1], m) + ProbabilityOr(m, Stay) * -0.4 by {
      assert focus[..2][..1] == focus[..1];
    }
    assert IntentScore(focus, m) == IntentScore(focus[..2], m) + ProbabilityOr(m, PowerSignal) * -0.2;
  }

  /** The culture enters an action's score only through its bias. */
  lemma CultureEntersThroughBias(config: WeightConfig, definition: ActionDefinition, profile: Profile,
                                 m: map<Intent, real>, c1: CultureMode, c2: CultureMode)
    ensures EvScore(config, definition, profile, c1, m) - EvScore(config, definition, profile, c2, m)
            == CultureBias(c1, definition.action) - CultureBias(c2, definition.action)
  {
  }

  /** Raising the tolerance by `d` raises every action's unrounded score by
      `0.1 d`, so the tolerance never changes how two unrounded scores compare.
      The ranking compares the scores rounded to three decimals, where the shift
      can create or break a tie. */
  lemma ToleranceShiftsEveryScore(config: WeightConfig, definition: ActionDefinition, profile: Profile,
                                  culture: CultureMode, m: map<Intent, real>, d: real)
    ensures EvScore(config, definition, profile.(tolerance := profile.tolerance + d), culture, m)
            == EvScore(config, definition, profile, culture, m) + 0.1 * d
  {
  }

  /** The relationship weights rank subordinate < peer < family < partner <
      manager < client, all within [0.2, 0.7]. */
  lemma RelationshipWeightRanks()
    ensures RelationshipWeight(Subordinate) < RelationshipWeight(Peer) < RelationshipWeight(Family)
            < RelationshipWeight(Partner) < RelationshipWeight(Manager) < RelationshipWeight(Client)
    ensures forall r :: 0.2 <= RelationshipWeight(r) <= 0.7
  {
  }

  /** `topIntentMap`: the blended range keyed by intent, entry by entry. */
  method KeyByIntent(adjusted: seq<IntentProb>) returns (m: map<Intent, real>)
    ensures m == ProbabilityMap(adjusted)
  {
    m := map[];
    for k := 0 to |adjusted|
      invariant m == ProbabilityMap(adjusted[..k])
    {
      assert adjusted[..k + 1][..k] == adjusted[..k];
      m := m[adjusted[k].intent := adjusted[k].probability];
    }
    assert adjusted[..|adjusted|] == adjusted;
  }

  /** `ev`: blend, key by intent, score every catalog entry, then sort the
      recommendations in place by descending EV. */
  method RankActions(config: WeightConfig, mode: StrategyMode, range: seq<IntentProb>, profile: Profile,
                     culture: CultureMode, role: string) returns (recs: seq<ActionRec>)
    ensures recs == Ranked(config, mode, range, profile, culture, role)
  {
    var adjusted := BlendedRange(mode, range);
    var m := KeyByIntent(adjusted);
    var actions := new ActionRec[CatalogSize](k requires 0 <= k < CatalogSize =>
      Recommend(config, range, m, profile, culture, role, Catalog[k]));
    assert actions[..] == Recommendations(config, mode, range, profile, culture, role);
    SortInPlace(actions, EvOf);
    recs := actions[..];
  }

  /** `ev` returns a permutation of the per-action recommendations, sorted by
      non-increasing EV with ties kept in catalog order. */
  lemma RankedIsSortedPermutation(config: WeightConfig, mode: StrategyMode, range: seq<IntentProb>, profile: Profile,
                                  culture: CultureMode, role: string)
    ensures var recs := Ranked(config, mode, range, profile, culture, role);
            var unsorted := Recommendations(config, mode, range, profile, culture, role);
            && |recs| == CatalogSize
            && multiset(recs) == multiset(unsorted)
            && SortedDesc(recs, EvOf)
            && forall v :: WithKey(recs, EvOf, v) == WithKey(unsorted, EvOf, v)
  {
    var unsorted := Recommendations(config, mode, range, profile, culture, role);
    SortPermutes(unsorted, EvOf);
    SortSorts(unsorted, EvOf);
    forall v
      ensures WithKey(SortDesc(unsorted, EvOf), EvOf, v) == WithKey(unsorted, EvOf, v)
    {
      SortStable(unsorted, EvOf, v);
    }
  }

  /** Every catalog action is recommended. */
  lemma RankedCoversCatalog(config: WeightConfig, mode: StrategyMode, range: seq<IntentProb>, profile: Profile,
                            culture: CultureMode, role: string)
    ensures var recs := Ranked(config, mode, range, profile, culture, role);
            forall k :: 0 <= k < CatalogSize ==> exists j :: 0 <= j < |recs| && recs[j].action == Catalog[k].action
  {
    var recs := Ranked(config, mode, range, profile, culture, role);
    var unsorted := Recommendations(config, mode, range, profile, culture, role);
    SortPermutes(unsorted, EvOf);
    forall k | 0 <= k < CatalogSize
      ensures exists j :: 0 <= j < |recs| && recs[j].action == Catalog[k].action
    {
      RecommendationFields(config, mode, range, profile, culture, role, k);
      InSortedOutput(unsorted, recs, k);
    }
  }

  /** Every recommendation is the one built for its catalog entry: its EV is
      that entry's score rounded to three decimals, its template is the
      rendered template for that action and its intents are the first three
      entries of the un-blended range. */
  lemma RankedBuiltFromCatalog(config: WeightConfig, mode: StrategyMode, range: seq<IntentProb>, profile: Profile,
                               culture: CultureMode, role: string)
    ensures var recs := Ranked(config, mode, range, profile, culture, role);
            forall j :: 0 <= j < |recs| ==> BuiltFromCatalog(recs[j], config, mode, range, profile, culture, role)
  {
    var recs := Ranked(config, mode, range, profile, culture, role);
    var unsorted := Recommendations(config, mode, range, profile, culture, role);
    SortPermutes(unsorted, EvOf);
    forall j | 0 <= j < |recs|
      ensures BuiltFromCatalog(recs[j], config, mode, range, profile, culture, role)
    {
      var k := InSortedInput(unsorted, recs, j);
      RecommendationFields(config, mode, range, profile, culture, role, k);
    }
  }

  lemma InSortedOutput(unsorted: seq<ActionRec>, recs: seq<ActionRec>, k: nat)
    requires multiset(recs) == multiset(unsorted) && k < |unsorted|
    ensures exists j :: 0 <= j < |recs| && recs[j] == unsorted[k]
  {
    assert unsorted[k] in multiset(recs);
  }

  lemma InSortedInput(unsorted: seq<ActionRec>, recs: seq<ActionRec>, j: nat) returns (k: nat)
    requires multiset(recs) == multiset(unsorted) && j < |recs|
    ensures k < |unsorted| && unsorted[k] == recs[j]
  {
    assert recs[j] in multiset(unsorted);
    k :| 0 <= k < |unsorted| && unsorted[k] == recs[j];
  }

  /** A recommendation names a catalog action and carries its EV score
      rounded to three decimals, the rationale built from the un-blended
      range and the action's tone, the rendered template for that action and
      the first three entries of the un-blended range. */
  ghost predicate BuiltFromCatalog(rec: ActionRec, config: WeightConfig, mode: StrategyMode, range: seq<IntentProb>,
                                   profile: Profile, culture: CultureMode, role: string)
  {
    && (exists k :: 0 <= k < CatalogSize && rec.action == Catalog[k].action
                    && rec.ev == Round3(EvScore(config, Catalog[k], profile, culture, ProbabilityMap(BlendedRange(mode, range))))
                    && rec.rationale == Rationale(range, Catalog[k].tone))
    && rec.template == RenderActionTemplate(role, rec.action, culture)
    && rec.intents == range[..if |range| < 3 then |range| else 3]
  }

  lemma RecommendationFields(config: WeightConfig, mode: StrategyMode, range: seq<IntentProb>, profile: Profile,
                             culture: CultureMode, role: string, k: nat)
    requires k < CatalogSize
    ensures var rec := Recommendations(config, mode, range, profile, culture, role)[k];
            && rec.action == Catalog[k].action
            && BuiltFromCatalog(rec, config, mode, range, profile, culture, role)
  {
  }

  /** The blend keeps the total mass of a distribution: 0.7 of it plus 0.3. */
  lemma BlendKeepsMass(mode: StrategyMode, range: seq<IntentProb>)
    requires |range| > 0
    ensures mode == Gto ==> Total(BlendedRange(mode, range)) == 0.7 * Total(range) + 0.3
    ensures Total(range) == 1.0 ==> Total(BlendedRange(mode, range)) == 1.0
  {
    if mode == Gto {
      BlendedMass(range);
    }
  }

  lemma BlendedMass(range: seq<IntentProb>)
    requires |range| > 0
    ensures Total(BlendedRange(Gto, range)) == 0.7 * Total(range) + 0.3
  {
    assert BlendedRange(Gto, range) == Blend(range, 1.0 / |range| as real);
    UniformBlendMass(range);
  }

  lemma UniformBlendMass(range: seq<IntentProb>)
    requires |range| > 0
    ensures Total(Blend(range, 1.0 / |range| as real)) == 0.7 * Total(range) + 0.3
  {
    var n := |range| as real;
    var u := 1.0 / n;
    var blended := Blend(range, u);
    assert Total(blended) == 0.7 * Total(range) + n * (0.3 * u);
    assert n * (0.3 * u) == 0.3 by {
      UniformShare(n);
    }
  }

  lemma UniformShare(n: real)
    requires n > 0.0
    ensures n * (0.3 * (1.0 / n)) == 0.3
  {
    assert n * (1.0 / n) == 1.0;
  }

  /** Keying by intent: an intent without an entry reads as 0. */
  lemma {:induction false} MissingIntentReadsZero(range: seq<IntentProb>, i: Intent)
    requires forall k :: 0 <= k < |range| ==> range[k].intent != i
    ensures i !in ProbabilityMap(range)
  {
    if range != [] {
      MissingIntentReadsZero(range[..|range| - 1], i);
    }
  }

  /** Keying by intent: an intent reads the probability of its last entry. */
  lemma {:induction false} LastEntryWins(range: seq<IntentProb>, k: nat)
    requires k < |range|
    requires forall j :: k < j < |range| ==> range[j].intent != range[k].intent
    ensures ProbabilityOr(ProbabilityMap(range), range[k].intent) == range[k].probability
  {
    var n := |range| - 1;
    if k < n {
      LastEntryWins(range[..n], k);
    }
  }

  /** `cultureBias` over the catalog: under "pressure" STAY_FULL gains 0.25
      and HARD_GO loses 0.2; under "wlb" the two GO actions gain 0.25 and both
      STAY actions lose 0.2; under "balanced" only CLARIFY gains 0.1. Every
      other catalog action is unbiased. */
  lemma CultureBiasOnCatalog()
    ensures CultureBias(Pressure, "STAY_FULL") == 0.25 && CultureBias(Pressure, "HARD_GO") == -0.2
    ensures CultureBias(Pressure, "SOFT_GO") == 0.0 && CultureBias(Pressure, "STAY_SHORT") == 0.0
    ensures CultureBias(Pressure, "CLARIFY") == 0.0 && CultureBias(Pressure, "CARE_SUPPORT") == 0.0
    ensures CultureBias(Pressure, "HELP_BRIDGE") == 0.0
    ensures CultureBias(Wlb, "HARD_GO") == 0.25 && CultureBias(Wlb, "SOFT_GO") == 0.25
    ensures CultureBias(Wlb, "STAY_SHORT") == -0.2 && CultureBias(Wlb, "STAY_FULL") == -0.2
    ensures CultureBias(Wlb, "CLARIFY") == 0.0 && CultureBias(Wlb, "CARE_SUPPORT") == 0.0
    ensures CultureBias(Wlb, "HELP_BRIDGE") == 0.0
    ensures CultureBias(Balanced, "CLARIFY") == 0.1
    ensures CultureBias(Balanced, "HARD_GO") == 0.0 && CultureBias(Balanced, "SOFT_GO") == 0.0
    ensures CultureBias(Balanced, "STAY_SHORT") == 0.0 && CultureBias(Balanced, "STAY_FULL") == 0.0
    ensures CultureBias(Balanced, "CARE_SUPPORT") == 0.0 && CultureBias(Balanced, "HELP_BRIDGE") == 0.0
  {
    WlbBiasOnCatalog();
    assert "SOFT_GO"[0] != "HARD_GO"[0];
    assert "STAY_SHORT"[5] != "STAY_FULL"[5];
  }

  /** Under "wlb" the STAY actions lose 0.2, the two GO actions gain 0.25 and
      the other three catalog actions are unbiased. */
  lemma WlbBiasOnCatalog()
    ensures CultureBias(Wlb, "HARD_GO") == 0.25 && CultureBias(Wlb, "SOFT_GO") == 0.25
    ensures CultureBias(Wlb, "STAY_SHORT") == -0.2 && CultureBias(Wlb, "STAY_FULL") == -0.2
    ensures CultureBias(Wlb, "CLARIFY") == 0.0
    ensures CultureBias(Wlb, "CARE_SUPPORT") == 0.0
    ensures CultureBias(Wlb, "HELP_BRIDGE") == 0.0
  {
    assert OccursAt("HARD_GO", "GO", 5);
    assert OccursAt("SOFT_GO", "GO", 5);
    assert !StartsWith("HARD_GO", "STAY") by { assert "HARD_GO"[..4][0] != "STAY"[0]; }
    assert !StartsWith("SOFT_GO", "STAY") by { assert "SOFT_GO"[..4][1] != "STAY"[1]; }
    assert !StartsWith("CLARIFY", "STAY") by { assert "CLARIFY"[..4][0] != "STAY"[0]; }
    assert !StartsWith("CARE_SUPPORT", "STAY") by { assert "CARE_SUPPORT"[..4][0] != "STAY"[0]; }
    assert !StartsWith("HELP_BRIDGE", "STAY") by { assert "HELP_BRIDGE"[..4][0] != "STAY"[0]; }
    NoGo("CLARIFY");
    NoGo("CARE_SUPPORT");
    NoGo("HELP_BRIDGE");
  }

  /** A text in which no 'G' is followed by 'O' does not contain "GO". */
  lemma NoGo(s: string)
    requires forall i :: 0 <= i < |s| - 1 ==> s[i] != 'G' || s[i + 1] != 'O'
    ensures !Contains(s, "GO")
  {
    forall i | 0 <= i <= |s| - 2
      ensures !OccursAt(s, "GO", i)
    {
      assert s[i..i + 2][0] == s[i] && s[i..i + 2][1] == s[i + 1];
    }
  }

  /** The summary is "N/A" exactly for an empty range; otherwise it is the
      item of the top entry, followed by ", " and the item of the second entry
      when there is one, and it opens with the top intent's name. */
  lemma DescribeTopIntentsShape(range: seq<IntentProb>)
    ensures |range| == 0 ==> DescribeTopIntents(range) == "N/A"
    ensures |range| == 1 ==> DescribeTopIntents(range) == DescribeIntent(range[0])
    ensures |range| >= 2 ==> DescribeTopIntents(range) == DescribeIntent(range[0]) + ", " + DescribeIntent(range[1])
    ensures |range| > 0 ==> StartsWith(DescribeTopIntents(range), IntentName(range[0].intent) + ":")
  {
    if |range| > 0 {
      var top := range[..if |range| < 2 then |range| else 2];
      var items := seq(|top|, k requires 0 <= k < |top| => DescribeIntent(top[k]));
      JoinStartsWithFirst(items, ", ");
      JoinOneOrTwo(items, ", ");
      assert items[0] == DescribeIntent(range[0]);
      assert StartsWith(items[0], IntentName(range[0].intent) + ":");
    }
  }
}
