/** The prior intent distribution (src/prior.ts): a base weight vector, held in
    a seven-slot array indexed by `Index`, is adjusted in place by culture,
    role and time cues, then floor-clamped and normalised. */
module Prior {
  import opened Types
  import opened Text

  /** The floor `normalize` applies to each weight. */
  const WeightFloor: real := 0.05

  /** `cloneBase`: the starting weight of each intent. */
  function BaseWeight(i: Intent): real
  {
    match i
    case GoHome => 1.0
    case Stay => 1.0
    case Neutral => 1.0
    case TestBoundary => 0.6
    case PowerSignal => 0.6
    case SmallTalk => 0.8
    case HelpSeek => 0.8
  }

  /** What `applyCulture` adds to each intent; a culture the switch does not
      name is treated as balanced. */
  function CultureDelta(culture: CultureMode, i: Intent): real
  {
    match culture
    case Pressure =>
      (match i
       case Stay => 0.6
       case PowerSignal => 0.4
       case GoHome => -0.2
       case _ => 0.0)
    case Wlb =>
      (match i
       case GoHome => 0.8
       case Stay => -0.3
       case Neutral => 0.2
       case _ => 0.0)
    case Balanced =>
      (match i
       case Neutral => 0.2
       case _ => 0.0)
  }

  /** The role category chosen by `applyRole`'s else-if chain. */
  datatype RoleCategory = ManagerRole | PeerRole | FamilyRole | ClientRole | OtherRole

  /** The first category, in the order manager, peer, family, client, one of
      whose two keywords occurs in the lowercased role. */
  function RoleOf(role: string): RoleCategory
  {
    var lower := Lower(role);
    if Contains(lower, "상사") || Contains(lower, "manager") then ManagerRole
    else if Contains(lower, "동료") || Contains(lower, "peer") then PeerRole
    else if Contains(lower, "가족") || Contains(lower, "family") then FamilyRole
    else if Contains(lower, "고객") || Contains(lower, "client") then ClientRole
    else OtherRole
  }

  /** What `applyRole` adds to each intent for a role category. */
  function RoleDelta(category: RoleCategory, i: Intent): real
  {
    match category
    case ManagerRole =>
      (match i
       case PowerSignal => 0.5
       case Stay => 0.3
       case _ => 0.0)
    case PeerRole =>
      (match i
       case SmallTalk => 0.4
       case HelpSeek => 0.2
       case _ => 0.0)
    case FamilyRole =>
      (match i
       case GoHome => 0.5
       case SmallTalk => 0.3
       case _ => 0.0)
    case ClientRole =>
      (match i
       case TestBoundary => 0.4
       case PowerSignal => 0.2
       case _ => 0.0)
    case OtherRole => 0.0
  }

  /** The three independent time cues, checked against the lowercased text. */
  predicate LateCue(lower: string)
  {
    Contains(lower, "late") || Contains(lower, "퇴근") || Contains(lower, "밤")
  }

  predicate DeadlineCue(lower: string)
  {
    Contains(lower, "deadline") || Contains(lower, "마감")
  }

  predicate LunchCue(lower: string)
  {
    Contains(lower, "lunch") || Contains(lower, "점심")
  }

  function LateDelta(i: Intent): real
  {
    match i
    case GoHome => 0.6
    case Stay => -0.2
    case _ => 0.0
  }

  function DeadlineDelta(i: Intent): real
  {
    match i
    case Stay => 0.5
    case HelpSeek => 0.4
    case _ => 0.0
  }

  function LunchDelta(i: Intent): real
  {
    match i
    case SmallTalk => 0.3
    case _ => 0.0
  }

  /** What `applyTime` adds to each intent: the deltas of every cue present. */
  function TimeDelta(timeContext: string, i: Intent): real
  {
    var lower := Lower(timeContext);
    (if LateCue(lower) then LateDelta(i) else 0.0)
    + (if DeadlineCue(lower) then DeadlineDelta(i) else 0.0)
    + (if LunchCue(lower) then LunchDelta(i) else 0.0)
  }

  /** The weight of intent `i` after all three adjustments. */
  function Weight(role: string, timeContext: string, culture: CultureMode, i: Intent): real
  {
    BaseWeight(i) + CultureDelta(culture, i) + RoleDelta(RoleOf(role), i) + TimeDelta(timeContext, i)
  }

  /** The adjusted weights in intent order. */
  function Weights(role: string, timeContext: string, culture: CultureMode): (w: seq<real>)
    ensures |w| == IntentCount
    ensures forall k :: 0 <= k < IntentCount ==> w[k] == Weight(role, timeContext, culture, Intents[k])
  {
    seq(IntentCount, k requires 0 <= k < IntentCount => Weight(role, timeContext, culture, Intents[k]))
  }

  /** `Math.max(x, 0.05)`. */
  function Floored(x: real): (r: real)
    ensures r >= WeightFloor && r >= x && (r == x || r == WeightFloor)
  {
    if x > WeightFloor then x else WeightFloor
  }

  function FlooredAll(w: seq<real>): (f: seq<real>)
    ensures |f| == |w| && forall k :: 0 <= k < |w| ==> f[k] == Floored(w[k])
  {
    seq(|w|, k requires 0 <= k < |w| => Floored(w[k]))
  }

  /** What `normalize` returns: each floored weight over the floored total. */
  function Normalized(w: seq<real>): seq<IntentProb>
    requires |w| == IntentCount
  {
    FlooredTotalPositive(w);
    Proportions(FlooredAll(w))
  }

  /** What `prior` returns. */
  function PriorOf(role: string, timeContext: string, culture: CultureMode): seq<IntentProb>
  {
    Normalized(Weights(role, timeContext, culture))
  }

  lemma FlooredTotalPositive(w: seq<real>)
    requires |w| == IntentCount
    ensures Sum(FlooredAll(w)) > 0.0
  {
    SumOfPositives(FlooredAll(w), 0);
  }

  /** `cloneBase`: a fresh weight record holding the base weights. */
  method CloneBase() returns (w: array<real>)
    ensures fresh(w) && w.Length == IntentCount
    ensures forall k :: 0 <= k < IntentCount ==> w[k] == BaseWeight(Intents[k])
  {
    w := new real[IntentCount];
    w[Index(GoHome)] := 1.0;
    w[Index(Stay)] := 1.0;
    w[Index(Neutral)] := 1.0;
    w[Index(TestBoundary)] := 0.6;
    w[Index(PowerSignal)] := 0.6;
    w[Index(SmallTalk)] := 0.8;
    w[Index(HelpSeek)] := 0.8;
  }

  /** `applyCulture`: adds the culture's deltas and changes nothing else. */
  method ApplyCulture(w: array<real>, culture: CultureMode)
    requires w.Length == IntentCount
    modifies w
    ensures forall k :: 0 <= k < IntentCount ==> w[k] == old(w[k]) + CultureDelta(culture, Intents[k])
  {
    match culture {
      case Pressure =>
        w[Index(Stay)] := w[Index(Stay)] + 0.6;
        w[Index(PowerSignal)] := w[Index(PowerSignal)] + 0.4;
        w[Index(GoHome)] := w[Index(GoHome)] - 0.2;
      case Wlb =>
        w[Index(GoHome)] := w[Index(GoHome)] + 0.8;
        w[Index(Stay)] := w[Index(Stay)] - 0.3;
        w[Index(Neutral)] := w[Index(Neutral)] + 0.2;
      case Balanced =>
        w[Index(Neutral)] := w[Index(Neutral)] + 0.2;
    }
  }

  /** `applyRole`: adds the deltas of the first matching category only. */
  method ApplyRole(w: array<real>, role: string)
    requires w.Length == IntentCount
    modifies w
    ensures forall k :: 0 <= k < IntentCount ==> w[k] == old(w[k]) + RoleDelta(RoleOf(role), Intents[k])
  {
    var lower := Lower(role);
    if Contains(lower, "상사") || Contains(lower, "manager") {
      w[Index(PowerSignal)] := w[Index(PowerSignal)] + 0.5;
      w[Index(Stay)] := w[Index(Stay)] + 0.3;
    } else if Contains(lower, "동료") || Contains(lower, "peer") {
      w[Index(SmallTalk)] := w[Index(SmallTalk)] + 0.4;
      w[Index(HelpSeek)] := w[Index(HelpSeek)] + 0.2;
    } else if Contains(lower, "가족") || Contains(lower, "family") {
      w[Index(GoHome)] := w[Index(GoHome)] + 0.5;
      w[Index(SmallTalk)] := w[Index(SmallTalk)] + 0.3;
    } else if Contains(lower, "고객") || Contains(lower, "client") {
      w[Index(TestBoundary)] := w[Index(TestBoundary)] + 0.4;
      w[Index(PowerSignal)] := w[Index(PowerSignal)] + 0.2;
    }
  }

  /** `applyTime`: adds the deltas of every time cue present. */
  method ApplyTime(w: array<real>, timeContext: string)
    requires w.Length == IntentCount
    modifies w
    ensures forall k :: 0 <= k < IntentCount ==> w[k] == old(w[k]) + TimeDelta(timeContext, Intents[k])
  {
    var lower := Lower(timeContext);
    if Contains(lower, "late") || Contains(lower, "퇴근") || Contains(lower, "밤") {
      w[Index(GoHome)] := w[Index(GoHome)] + 0.6;
      w[Index(Stay)] := w[Index(Stay)] - 0.2;
    }
    if Contains(lower, "deadline") || Contains(lower, "마감") {
      w[Index(Stay)] := w[Index(Stay)] + 0.5;
      w[Index(HelpSeek)] := w[Index(HelpSeek)] + 0.4;
    }
    if Contains(lower, "lunch") || Contains(lower, "점심") {
      w[Index(SmallTalk)] := w[Index(SmallTalk)] + 0.3;
    }
  }

  /** `normalize`: accumulates the floored total, then divides each floored
      weight by it. */
  method Normalize(w: array<real>) returns (d: seq<IntentProb>)
    requires w.Length == IntentCount
    ensures d == Normalized(w[..])
  {
    var total := 0.0;
    for k := 0 to IntentCount
      invariant total == Sum(FlooredAll(w[..])[..k])
    {
      assert FlooredAll(w[..])[..k + 1][..k] == FlooredAll(w[..])[..k];
      total := total + Floored(w[k]);
    }
    assert FlooredAll(w[..])[..IntentCount] == FlooredAll(w[..]);
    FlooredTotalPositive(w[..]);
    var weights := w[..];
    d := seq(IntentCount, k requires 0 <= k < IntentCount => IntentProb(Intents[k], Floored(weights[k]) / total));
  }

  /** `prior`: base weights, then culture, role and time, then normalisation. */
  method ComputePrior(role: string, timeContext: string, culture: CultureMode) returns (d: seq<IntentProb>)
    ensures d == PriorOf(role, timeContext, culture)
  {
    var w := CloneBase();
    ApplyCulture(w, culture);
    ApplyRole(w, role);
    ApplyTime(w, timeContext);
    assert w[..] == Weights(role, timeContext, culture);
    d := Normalize(w);
  }

  /** `normalize` yields one entry per intent in the fixed order, each at least
      the floor over the total and so positive, with total mass 1. */
  lemma NormalizedIsDistribution(w: seq<real>)
    requires |w| == IntentCount
    ensures InIntentOrder(Normalized(w))
    ensures Sum(FlooredAll(w)) > 0.0
    ensures forall k :: 0 <= k < IntentCount ==>
              Normalized(w)[k].probability >= WeightFloor / Sum(FlooredAll(w)) > 0.0
    ensures Total(Normalized(w)) == 1.0
  {
    var d := Normalized(w);
    var t := Sum(FlooredAll(w));
    ProportionsAreDistribution(FlooredAll(w));
    forall k | 0 <= k < IntentCount
      ensures d[k].probability >= WeightFloor / t
    {
      DivideMonotone(WeightFloor, Floored(w[k]), t);
    }
  }

  lemma DivideMonotone(a: real, b: real, t: real)
    requires a <= b && t > 0.0
    ensures a / t <= b / t
  {
  }

  /** The prior is a distribution over the seven intents in fixed order. */
  lemma PriorIsDistribution(role: string, timeContext: string, culture: CultureMode)
    ensures InIntentOrder(PriorOf(role, timeContext, culture))
    ensures forall k :: 0 <= k < IntentCount ==> PriorOf(role, timeContext, culture)[k].probability > 0.0
    ensures Total(PriorOf(role, timeContext, culture)) == 1.0
  {
    NormalizedIsDistribution(Weights(role, timeContext, culture));
  }

  /** Every adjusted weight is at least 0.5 (the lowest is STAY under "wlb"
      with a late-time cue: 1 - 0.3 - 0.2), so the 0.05 floor never applies. */
  lemma WeightsAboveHalf(role: string, timeContext: string, culture: CultureMode)
    ensures forall k :: 0 <= k < IntentCount ==> Weights(role, timeContext, culture)[k] >= 0.5
    ensures FlooredAll(Weights(role, timeContext, culture)) == Weights(role, timeContext, culture)
  {
    forall k | 0 <= k < IntentCount
      ensures Weights(role, timeContext, culture)[k] >= 0.5
    {
      var i := Intents[k];
      assert RoleDelta(RoleOf(role), i) >= 0.0;
      assert TimeDelta(timeContext, i) >= LateDelta(i) || TimeDelta(timeContext, i) >= 0.0;
      assert BaseWeight(i) + CultureDelta(culture, i) + LateDelta(i) >= 0.5;
      assert BaseWeight(i) + CultureDelta(culture, i) >= 0.5;
    }
  }

  /** Every adjusted weight is below 3 (the highest is GO_HOME under "wlb"
      for a family role with a late-time cue: 1 + 0.8 + 0.5 + 0.6), so the
      weights sum to at most 21. */
  lemma WeightsBelowThree(role: string, timeContext: string, culture: CultureMode)
    ensures forall k :: 0 <= k < IntentCount ==> Weights(role, timeContext, culture)[k] <= 3.0
    ensures Sum(Weights(role, timeContext, culture)) <= 21.0
  {
    var w := Weights(role, timeContext, culture);
    forall k | 0 <= k < IntentCount
      ensures w[k] <= 3.0
    {
      var i := Intents[k];
      assert RoleDelta(RoleOf(role), i) <= 0.5;
      assert TimeDelta(timeContext, i) <= 0.6;
      assert BaseWeight(i) + CultureDelta(culture, i) <= 1.8;
    }
    Sum7(w);
  }

  /** A sum of seven terms, written out. */
  lemma Sum7(w: seq<real>)
    requires |w| == 7
    ensures Sum(w) == w[0] + w[1] + w[2] + w[3] + w[4] + w[5] + w[6]
  {
    assert w[..6][..5] == w[..5];
    assert w[..5][..4] == w[..4];
    assert w[..4][..3] == w[..3];
    assert w[..3][..2] == w[..2];
    assert w[..2][..1] == w[..1];
    assert w[..1][..0] == [];
    assert Sum(w[..1]) == w[0];
    assert Sum(w[..2]) == Sum(w[..1]) + w[1];
    assert Sum(w[..3]) == Sum(w[..2]) + w[2];
    assert Sum(w[..4]) == Sum(w[..3]) + w[3];
    assert Sum(w[..5]) == Sum(w[..4]) + w[4];
    assert Sum(w[..6]) == Sum(w[..5]) + w[5];
    assert Sum(w) == Sum(w[..6]) + w[6];
  }

  /** With role and time fixed, "wlb" gives GO_HOME a strictly higher and STAY
      a strictly lower prior probability than "pressure". */
  lemma WlbFavoursGoingHome(role: string, timeContext: string)
    ensures PriorOf(role, timeContext, Wlb)[Index(GoHome)].probability
            > PriorOf(role, timeContext, Pressure)[Index(GoHome)].probability
    ensures PriorOf(role, timeContext, Wlb)[Index(Stay)].probability
            < PriorOf(role, timeContext, Pressure)[Index(Stay)].probability
  {
    CultureContrast(role, timeContext);
    var ww := Weights(role, timeContext, Wlb);
    var wp := Weights(role, timeContext, Pressure);
    FractionOrder(wp[0], Sum(wp), ww[0], Sum(ww));
    FractionOrder(ww[1], Sum(ww), wp[1], Sum(wp));
  }

  /** How the "wlb" and "pressure" weight vectors differ: GO_HOME gains 1,
      STAY loses 0.9 and the total loses 0.1; the floor applies to neither. */
  lemma CultureContrast(role: string, timeContext: string)
    ensures var ww := Weights(role, timeContext, Wlb);
            var wp := Weights(role, timeContext, Pressure);
            && Sum(wp) == Sum(ww) + 0.1 && Sum(ww) > 0.0
            && ww[0] == wp[0] + 1.0 && wp[0] > 0.0
            && ww[1] == wp[1] - 0.9 && wp[1] < Sum(ww)
            && PriorOf(role, timeContext, Wlb)[0].probability == ww[0] / Sum(ww)
            && PriorOf(role, timeContext, Wlb)[1].probability == ww[1] / Sum(ww)
            && PriorOf(role, timeContext, Pressure)[0].probability == wp[0] / Sum(wp)
            && PriorOf(role, timeContext, Pressure)[1].probability == wp[1] / Sum(wp)
  {
    var ww := Weights(role, timeContext, Wlb);
    var wp := Weights(role, timeContext, Pressure);
    WeightsAboveHalf(role, timeContext, Wlb);
    WeightsAboveHalf(role, timeContext, Pressure);
    Sum7(ww);
    Sum7(wp);
  }

  /** Against every intent `j`, GO_HOME's weight ratio is at least as high
      under "wlb" as under "pressure", and STAY's at most as high; against
      each other both are strict. */
  lemma CultureCross(role: string, timeContext: string)
    ensures var ww := Weights(role, timeContext, Wlb);
            var wp := Weights(role, timeContext, Pressure);
            && (forall j :: 0 <= j < IntentCount ==> AtLeast(ww[0], wp[j], wp[0], ww[j]))
            && !AtLeast(wp[0], ww[1], ww[0], wp[1])
            && (forall j :: 0 <= j < IntentCount ==> AtLeast(wp[1], ww[j], ww[1], wp[j]))
            && !AtLeast(ww[1], wp[0], wp[1], ww[0])
  {
    forall j | 0 <= j < IntentCount
      ensures var ww := Weights(role, timeContext, Wlb);
              var wp := Weights(role, timeContext, Pressure);
              AtLeast(ww[0], wp[j], wp[0], ww[j]) && AtLeast(wp[1], ww[j], ww[1], wp[j])
    {
      CultureCrossAt(role, timeContext, j);
    }
    CultureCrossAt(role, timeContext, 0);
    CultureCrossAt(role, timeContext, 1);
  }

  lemma CultureCrossAt(role: string, timeContext: string, j: nat)
    requires j < IntentCount
    ensures var ww := Weights(role, timeContext, Wlb);
            var wp := Weights(role, timeContext, Pressure);
            && AtLeast(ww[0], wp[j], wp[0], ww[j])
            && AtLeast(wp[1], ww[j], ww[1], wp[j])
            && (j == 1 ==> !AtLeast(wp[0], ww[1], ww[0], wp[1]))
            && (j == 0 ==> !AtLeast(ww[1], wp[0], wp[1], ww[0]))
  {
    var ww := Weights(role, timeContext, Wlb);
    var wp := Weights(role, timeContext, Pressure);
    PressureShape(role, timeContext);
    CultureShift(role, timeContext, 0);
    CultureShift(role, timeContext, 1);
    CultureShift(role, timeContext, j);
    CrossCase(j, wp[0], wp[1], wp[2], wp[4], wp[j], ww[0], ww[1], ww[j]);
  }

  /** How much more the `j`-th intent weighs under "wlb" than under "pressure". */
  function WlbShift(j: nat): real
    requires j < IntentCount
  {
    CultureDelta(Wlb, Intents[j]) - CultureDelta(Pressure, Intents[j])
  }

  lemma CultureShift(role: string, timeContext: string, j: nat)
    requires j < IntentCount
    ensures Weights(role, timeContext, Wlb)[j] == Weights(role, timeContext, Pressure)[j] + WlbShift(j)
  {
  }

  /** What the cross comparisons need of the "pressure" weights. */
  lemma PressureShape(role: string, timeContext: string)
    ensures var wp := Weights(role, timeContext, Pressure);
            && (forall k :: 0 <= k < IntentCount ==> wp[k] >= 0.5)
            && wp[0] <= 1.9 && wp[2] == 1.0 && 0.9 * wp[4] > 0.4 * wp[1]
  {
    WeightsAboveHalf(role, timeContext, Pressure);
    StayOutweighsPower(role, timeContext);
  }

  /** The cross comparisons for the `j`-th intent, from the weights alone:
      `p` are the "pressure" weights, `q` the "wlb" ones. */
  lemma CrossCase(j: nat, p0: real, p1: real, p2: real, p4: real, pj: real, q0: real, q1: real, qj: real)
    requires j < IntentCount
    requires p0 >= 0.5 && p0 <= 1.9 && p1 >= 0.5 && pj >= 0.5 && p2 == 1.0 && 0.9 * p4 > 0.4 * p1
    requires j == 0 ==> pj == p0
    requires j == 1 ==> pj == p1
    requires j == 2 ==> pj == p2
    requires j == 4 ==> pj == p4
    requires q0 == p0 + WlbShift(0) && q1 == p1 + WlbShift(1) && qj == pj + WlbShift(j)
    ensures AtLeast(q0, pj, p0, qj)
    ensures AtLeast(p1, qj, q1, pj)
    ensures j == 1 ==> !AtLeast(p0, qj, q0, pj)
    ensures j == 0 ==> !AtLeast(q1, pj, p1, qj)
  {
    var d := WlbShift(j);
    assert WlbShift(0) == 1.0 && WlbShift(1) == -0.9;
    if j == 0 {
      assert d == 1.0;
    } else if j == 1 {
      assert d == -0.9;
    } else if j == 2 {
      assert d == 0.2;
    } else if j == 4 {
      assert d == -0.4;
    } else {
      assert d == 0.0;
    }
    CrossFromDeltas(p0, p1, pj, q0, q1, qj, d);
  }

  /** The two cross comparisons for intent `j`, whose weight moves by `d`
      while GO_HOME's moves by 1 and STAY's by -0.9. */
  lemma CrossFromDeltas(p0: real, p1: real, pj: real, q0: real, q1: real, qj: real, d: real)
    requires q0 == p0 + 1.0 && q1 == p1 - 0.9 && qj == pj + d
    requires pj - p0 * d >= 0.0 && 0.9 * pj + p1 * d >= 0.0
    ensures AtLeast(q0, pj, p0, qj)
    ensures AtLeast(p1, qj, q1, pj)
    ensures pj - p0 * d > 0.0 ==> !AtLeast(p0, qj, q0, pj)
    ensures 0.9 * pj + p1 * d > 0.0 ==> !AtLeast(q1, pj, p1, qj)
  {
    ShiftCross(p0, pj, 1.0, d);
    ShiftCross(p1, pj, -0.9, d);
    assert q0 * pj - p0 * qj == pj - p0 * d;
    assert q1 * pj - p1 * qj == -0.9 * pj - p1 * d;
  }

  /** `(p + dp) * q - p * (q + dq)`, multiplied out. */
  lemma ShiftCross(p: real, q: real, dp: real, dq: real)
    ensures (p + dp) * q - p * (q + dq) == dp * q - p * dq
  {
  }

  /** Under "pressure", 0.9 of POWER_SIGNAL's weight outweighs 0.4 of STAY's:
      the manager role, the only one that raises STAY, raises POWER_SIGNAL
      more. */
  lemma StayOutweighsPower(role: string, timeContext: string)
    ensures 0.9 * Weight(role, timeContext, Pressure, PowerSignal) > 0.4 * Weight(role, timeContext, Pressure, Stay)
  {
    assert TimeDelta(timeContext, PowerSignal) == 0.0;
    assert TimeDelta(timeContext, Stay) <= 0.5;
  }

  /** A role mentioning a manager keyword gets the manager deltas only, even
      when it also mentions a later category: the chain stops at its first
      match, so "상사 동료" earns no peer SMALL_TALK bonus. */
  lemma ManagerTakesPrecedence(role: string, timeContext: string, culture: CultureMode)
    requires Contains(role, "상사") || Contains(role, "manager")
    ensures RoleOf(role) == ManagerRole
    ensures Weight(role, timeContext, culture, SmallTalk)
            == BaseWeight(SmallTalk) + CultureDelta(culture, SmallTalk) + TimeDelta(timeContext, SmallTalk)
    ensures Weight(role, timeContext, culture, PowerSignal)
            == BaseWeight(PowerSignal) + CultureDelta(culture, PowerSignal) + 0.5 + TimeDelta(timeContext, PowerSignal)
  {
    if Contains(role, "상사") {
      ContainsLower(role, "상사");
      assert Lower("상사") == "상사";
    } else {
      ContainsLower(role, "manager");
      assert Lower("manager") == "manager";
    }
  }

  /** Role and time keywords are matched case-insensitively: an upper-case
      "MANAGER" selects the manager deltas. */
  lemma UpperCaseManager(role: string)
    requires Contains(role, "MANAGER")
    ensures RoleOf(role) == ManagerRole
  {
    ContainsLower(role, "MANAGER");
    assert Lower("MANAGER") == "manager";
  }

  /** Lowercasing the role and time text first changes nothing. */
  lemma PriorIgnoresCase(role: string, timeContext: string, culture: CultureMode)
    ensures PriorOf(Lower(role), Lower(timeContext), culture) == PriorOf(role, timeContext, culture)
  {
    LowerIdempotent(role);
    LowerIdempotent(timeContext);
    assert Weights(Lower(role), Lower(timeContext), culture) == Weights(role, timeContext, culture);
  }

  /** The three time cues stack: a context with all of them gets every delta. */
  lemma TimeCuesStack(timeContext: string)
    requires Contains(timeContext, "퇴근") && Contains(timeContext, "마감") && Contains(timeContext, "점심")
    ensures TimeDelta(timeContext, GoHome) == 0.6
    ensures TimeDelta(timeContext, Stay) == 0.3
    ensures TimeDelta(timeContext, HelpSeek) == 0.4
    ensures TimeDelta(timeContext, SmallTalk) == 0.3
    ensures TimeDelta(timeContext, Neutral) == 0.0
  {
    ContainsLower(timeContext, "퇴근");
    ContainsLower(timeContext, "마감");
    ContainsLower(timeContext, "점심");
    assert Lower("퇴근") == "퇴근";
    assert Lower("마감") == "마감";
    assert Lower("점심") == "점심";
  }
}
