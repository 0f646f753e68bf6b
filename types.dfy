/** The closed enumerations and records shared by every stage of the pipeline
    (src/types.ts), together with the exact real-valued sums the stages use. */
module Types {

  /** The seven conversational-posture labels. */
  datatype Intent = GoHome | Stay | Neutral | TestBoundary | PowerSignal | SmallTalk | HelpSeek

  /** The fixed order in which every stage enumerates the intents. */
  const Intents: seq<Intent> := [GoHome, Stay, Neutral, TestBoundary, PowerSignal, SmallTalk, HelpSeek]

  const IntentCount: nat := 7

  /** Position of an intent in `Intents`. */
  function Index(i: Intent): (k: nat)
    ensures k < IntentCount && Intents[k] == i
  {
    match i
    case GoHome => 0
    case Stay => 1
    case Neutral => 2
    case TestBoundary => 3
    case PowerSignal => 4
    case SmallTalk => 5
    case HelpSeek => 6
  }

  /** The label the source prints for an intent. */
  function IntentName(i: Intent): string
  {
    match i
    case GoHome => "GO_HOME"
    case Stay => "STAY"
    case Neutral => "NEUTRAL"
    case TestBoundary => "TEST_BOUNDARY"
    case PowerSignal => "POWER_SIGNAL"
    case SmallTalk => "SMALL_TALK"
    case HelpSeek => "HELP_SEEK"
  }

  datatype CultureMode = Balanced | Pressure | Wlb

  datatype Relationship = Peer | Manager | Subordinate | Client | Family | Partner

  /** The user profile that personalises the EV scores. */
  datatype Profile = Profile(relationship: Relationship, taskUrgency: real, futureImportance: real, tolerance: real)

  /** One entry of an intent distribution. */
  datatype IntentProb = IntentProb(intent: Intent, probability: real)

  datatype Option<T> = None | Some(value: T)

  predicate NoDuplicates<T(==)>(s: seq<T>)
  {
    forall i, j :: 0 <= i < j < |s| ==> s[i] != s[j]
  }

  /** Left-to-right sum, the order of the source's `reduce` and `forEach` accumulations. */
  function Sum(s: seq<real>): real
  {
    if s == [] then 0.0 else Sum(s[..|s| - 1]) + s[|s| - 1]
  }

  function ProbabilityOf(p: IntentProb): real
  {
    p.probability
  }

  /** Total probability mass of a distribution, summed left to right. It is
      `Sum` of the probabilities (see `TotalIsSum`), written over the entries
      so that the lemmas about slicing a distribution need no mapped sequence. */
  function Total(d: seq<IntentProb>): real
  {
    if d == [] then 0.0 else Total(d[..|d| - 1]) + d[|d| - 1].probability
  }

  /** The probabilities of a distribution, in entry order. */
  function Probabilities(d: seq<IntentProb>): (r: seq<real>)
    ensures |r| == |d| && forall k :: 0 <= k < |d| ==> r[k] == d[k].probability
  {
    seq(|d|, k requires 0 <= k < |d| => d[k].probability)
  }

  /** `Total` and `Sum` are one concept: the mass is the sum of the probabilities. */
  lemma {:induction false} TotalIsSum(d: seq<IntentProb>)
    ensures Total(d) == Sum(Probabilities(d))
  {
    if d != [] {
      var n := |d| - 1;
      TotalIsSum(d[..n]);
      assert Probabilities(d)[..n] == Probabilities(d[..n]);
    }
  }

  /** A distribution over the intents in the fixed order of `Intents`. */
  predicate InIntentOrder(d: seq<IntentProb>)
  {
    |d| == IntentCount && forall k :: 0 <= k < IntentCount ==> d[k].intent == Intents[k]
  }

  lemma {:induction false} SumOfPositives(s: seq<real>, k: nat)
    requires k < |s|
    requires forall j :: 0 <= j < |s| ==> s[j] > 0.0
    ensures Sum(s) >= s[k] && Sum(s) > 0.0
  {
    if k < |s| - 1 {
      SumOfPositives(s[..|s| - 1], k);
    } else if |s| > 1 {
      SumOfPositives(s[..|s| - 1], 0);
    }
  }

  /** A distribution whose entries are `xs[k] / t` has total mass `Sum(xs) / t`. */
  lemma {:induction false} TotalScaled(d: seq<IntentProb>, xs: seq<real>, t: real)
    requires t != 0.0 && |d| == |xs|
    requires forall k :: 0 <= k < |d| ==> d[k].probability == xs[k] / t
    ensures Total(d) == Sum(xs) / t
  {
    if d != [] {
      var n := |d| - 1;
      TotalScaled(d[..n], xs[..n], t);
    }
  }

  lemma {:induction false} TotalSplit(a: seq<IntentProb>, b: seq<IntentProb>)
    ensures Total(a + b) == Total(a) + Total(b)
    decreases |b|
  {
    if b != [] {
      var n := |b| - 1;
      assert (a + b)[..|a + b| - 1] == a + b[..n];
      TotalSplit(a, b[..n]);
    } else {
      assert a + b == a;
    }
  }

  /** Total mass depends only on the multiset of entries. */
  lemma {:induction false} TotalPermutation(a: seq<IntentProb>, b: seq<IntentProb>)
    requires multiset(a) == multiset(b)
    ensures Total(a) == Total(b)
    decreases |a|
  {
    if a != [] {
      var n := |a| - 1;
      var x := a[n];
      assert a == a[..n] + [x];
      assert x in multiset(b);
      var k :| 0 <= k < |b| && b[k] == x;
      var rest := b[..k] + b[k + 1..];
      RemoveAt(b, k);
      assert multiset(a[..n]) == multiset(a) - multiset{x};
      TotalPermutation(a[..n], rest);
    }
  }

  /** Taking out the entry at `k` removes it from the multiset and its mass from the total. */
  lemma RemoveAt(b: seq<IntentProb>, k: nat)
    requires k < |b|
    ensures multiset(b[..k] + b[k + 1..]) == multiset(b) - multiset{b[k]}
    ensures Total(b) == Total(b[..k] + b[k + 1..]) + b[k].probability
  {
    MultisetRemoveAt(b, k);
    TotalRemoveAt(b, k);
  }

  lemma MultisetRemoveAt<T>(b: seq<T>, k: nat)
    requires k < |b|
    ensures multiset(b[..k] + b[k + 1..]) == multiset(b) - multiset{b[k]}
  {
    assert b == b[..k] + [b[k]] + b[k + 1..];
  }

  lemma TotalRemoveAt(b: seq<IntentProb>, k: nat)
    requires k < |b|
    ensures Total(b) == Total(b[..k] + b[k + 1..]) + b[k].probability
  {
    var x := b[k];
    assert b == b[..k] + ([x] + b[k + 1..]);
    TotalSplit(b[..k], [x] + b[k + 1..]);
    TotalSplit([x], b[k + 1..]);
    TotalSplit(b[..k], b[k + 1..]);
    assert Total([x]) == x.probability by {
      assert [x][..0] == [];
    }
  }

  /** Every intent is listed, and there are exactly seven. */
  lemma IntentSetSize()
    ensures forall i: Intent :: i in Intents
    ensures |set i: Intent | i in Intents| == IntentCount
  {
    forall i: Intent
      ensures i in Intents
    {
      assert Intents[Index(i)] == i;
    }
    var s := set i: Intent | i in Intents;
    assert s == {GoHome, Stay, Neutral, TestBoundary, PowerSignal, SmallTalk, HelpSeek};
  }

  /** A sum of `n` equal terms. */
  lemma {:induction false} SumConstant(s: seq<real>, c: real)
    requires forall k :: 0 <= k < |s| ==> s[k] == c
    ensures Sum(s) == |s| as real * c
  {
    if s != [] {
      SumConstant(s[..|s| - 1], c);
    }
  }

  /** `Index` inverts `Intents`. */
  lemma IndexOfListed(k: nat)
    requires k < IntentCount
    ensures Index(Intents[k]) == k
  {
  }

  /** The distribution giving the `k`-th intent the share `xs[k] / Sum(xs)`. */
  function Proportions(xs: seq<real>): seq<IntentProb>
    requires |xs| == IntentCount && Sum(xs) != 0.0
  {
    seq(IntentCount, k requires 0 <= k < IntentCount => IntentProb(Intents[k], xs[k] / Sum(xs)))
  }

  /** Positive weights give a distribution over the seven intents in fixed
      order: every share is positive and the shares sum to 1. */
  lemma ProportionsAreDistribution(xs: seq<real>)
    requires |xs| == IntentCount && forall k :: 0 <= k < IntentCount ==> xs[k] > 0.0
    ensures Sum(xs) > 0.0
    ensures InIntentOrder(Proportions(xs))
    ensures forall k :: 0 <= k < IntentCount ==> Proportions(xs)[k].probability > 0.0
    ensures Total(Proportions(xs)) == 1.0
  {
    SumOfPositives(xs, 0);
    var d := Proportions(xs);
    forall k | 0 <= k < IntentCount
      ensures d[k].probability > 0.0
    {
      PositiveQuotient(xs[k], Sum(xs));
    }
    ProportionsTotal(xs);
  }

  lemma ProportionsTotal(xs: seq<real>)
    requires |xs| == IntentCount && Sum(xs) != 0.0
    ensures Total(Proportions(xs)) == 1.0
  {
    TotalScaled(Proportions(xs), xs, Sum(xs));
    assert Sum(xs) / Sum(xs) == 1.0;
  }

  lemma PositiveQuotient(a: real, t: real)
    requires a > 0.0 && t > 0.0
    ensures a / t > 0.0
  {
  }

  /** `a / b < c / d` for positive denominators when `a * d < c * b`. */
  lemma FractionOrder(a: real, b: real, c: real, d: real)
    requires b > 0.0 && d > 0.0 && a * d < c * b
    ensures a / b < c / d
  {
    assert a / b == (a * d) / (b * d);
    assert c / d == (c * b) / (b * d);
  }

  /** The entrywise products `w[k] * e[k]`. */
  function Weighted(w: seq<real>, e: seq<real>): (r: seq<real>)
    requires |w| == |e|
    ensures |r| == |w| && forall k :: 0 <= k < |w| ==> r[k] == w[k] * e[k]
  {
    seq(|w|, k requires 0 <= k < |w| => w[k] * e[k])
  }

  /** The share of entry `k` in the weighted total: `w[k] * e[k]` over the
      sum of all the products. */
  function WeightedShare(w: seq<real>, e: seq<real>, k: nat): real
    requires |w| == |e| && k < |w| && Sum(Weighted(w, e)) != 0.0
  {
    w[k] * e[k] / Sum(Weighted(w, e))
  }

  /** Scaling every entry by `c` scales the sum by `c`. */
  lemma {:induction false} SumScaled(v: seq<real>, u: seq<real>, c: real)
    requires |v| == |u|
    requires forall k :: 0 <= k < |v| ==> v[k] == c * u[k]
    ensures Sum(v) == c * Sum(u)
  {
    if v != [] {
      var n := |v| - 1;
      SumScaled(v[..n], u[..n], c);
    }
  }

  /** Entries that are the weighted products scaled by one positive factor
      have the weighted shares as their proportions: the factor cancels. */
  lemma ScaledProportions(x: seq<real>, w: seq<real>, e: seq<real>, c: real)
    requires |x| == IntentCount && |w| == IntentCount && |e| == IntentCount && c > 0.0
    requires forall k :: 0 <= k < IntentCount ==> w[k] > 0.0 && e[k] > 0.0
    requires forall k :: 0 <= k < IntentCount ==> x[k] == c * Weighted(w, e)[k]
    ensures Sum(Weighted(w, e)) > 0.0 && Sum(x) > 0.0
    ensures forall k :: 0 <= k < IntentCount ==> Proportions(x)[k].probability == WeightedShare(w, e, k)
  {
    var u := Weighted(w, e);
    WeightedSumPositive(w, e);
    SumScaled(x, u, c);
    PositiveProduct(c, Sum(u));
    forall k | 0 <= k < IntentCount
      ensures Proportions(x)[k].probability == WeightedShare(w, e, k)
    {
      assert Scaled(x[k], c, u[k]) && Scaled(Sum(x), c, Sum(u));
      CancelFactor(c, x[k], Sum(x), u[k], Sum(u));
    }
  }

  /** A common positive factor cancels from a share. */
  lemma CancelFactor(c: real, a: real, sa: real, b: real, sb: real)
    requires c > 0.0 && sb > 0.0 && Scaled(a, c, b) && Scaled(sa, c, sb)
    ensures a / sa == b / sb
  {
  }

  /** If `x * a[j] >= y * b[j]` for every `j`, the same holds of the sums of
      `a` and of `b` weighted by positive `e`, strictly when it is strict at
      some `s`. */
  lemma {:induction false} CrossSum(a: seq<real>, b: seq<real>, e: seq<real>, x: real, y: real, s: nat)
    requires |a| == |b| == |e|
    requires forall j :: 0 <= j < |a| ==> e[j] > 0.0 && AtLeast(x, a[j], y, b[j])
    ensures AtLeast(x, Sum(Weighted(a, e)), y, Sum(Weighted(b, e)))
    ensures s < |a| && !AtLeast(y, b[s], x, a[s]) ==> !AtLeast(y, Sum(Weighted(b, e)), x, Sum(Weighted(a, e)))
  {
    if a != [] {
      var n := |a| - 1;
      WeightedPrefix(a, e, n);
      WeightedPrefix(b, e, n);
      CrossSum(a[..n], b[..n], e[..n], x, y, s);
      var sa := Sum(Weighted(a[..n], e[..n]));
      var sb := Sum(Weighted(b[..n], e[..n]));
      assert Sum(Weighted(a, e)) == sa + a[n] * e[n];
      assert Sum(Weighted(b, e)) == sb + b[n] * e[n];
      CrossStep(x, y, sa, sb, a[n], b[n], e[n], Sum(Weighted(a, e)), Sum(Weighted(b, e)));
      if s < n && !AtLeast(y, b[s], x, a[s]) {
        assert a[..n][s] == a[s] && b[..n][s] == b[s];
      }
    }
  }

  lemma WeightedPrefix(w: seq<real>, e: seq<real>, n: nat)
    requires |w| == |e| && n <= |w|
    ensures Weighted(w, e)[..n] == Weighted(w[..n], e[..n])
  {
    assert forall k :: 0 <= k < n ==> Weighted(w, e)[..n][k] == w[k] * e[k];
    assert forall k :: 0 <= k < n ==> Weighted(w[..n], e[..n])[k] == w[k] * e[k];
  }

  /** `x` is `c` times `u`. */
  predicate Scaled(x: real, c: real, u: real)
  {
    x == c * u
  }

  /** `x * p >= y * q`. */
  predicate AtLeast(x: real, p: real, y: real, q: real)
  {
    x * p >= y * q
  }

  lemma CrossStep(x: real, y: real, sa: real, sb: real, p: real, q: real, e: real, ta: real, tb: real)
    requires e > 0.0 && AtLeast(x, p, y, q) && AtLeast(x, sa, y, sb)
    requires ta == sa + p * e && tb == sb + q * e
    ensures AtLeast(x, ta, y, tb)
    ensures !AtLeast(y, sb, x, sa) || !AtLeast(y, q, x, p) ==> !AtLeast(y, tb, x, ta)
  {
    assert x * ta - y * tb == (x * sa - y * sb) + e * (x * p - y * q);
    if x * p > y * q {
      PositiveProduct(e, x * p - y * q);
    } else {
      assert e * (x * p - y * q) >= 0.0;
    }
  }

  /** The share of entry `i` in a weighted sum grows when its weight grows
      against every other weight: if `b[i] / b[j] >= a[i] / a[j]` for all `j`,
      strictly for `s`, then `i` takes a strictly larger share under `b`. */
  lemma ShareGrows(a: seq<real>, b: seq<real>, e: seq<real>, i: nat, s: nat)
    requires |a| == |b| == |e| && i < |a| && s < |a|
    requires forall j :: 0 <= j < |a| ==> a[j] > 0.0 && b[j] > 0.0 && e[j] > 0.0
    requires forall j :: 0 <= j < |a| ==> AtLeast(b[i], a[j], a[i], b[j])
    requires !AtLeast(a[i], b[s], b[i], a[s])
    ensures Sum(Weighted(a, e)) > 0.0 && Sum(Weighted(b, e)) > 0.0
    ensures WeightedShare(a, e, i) < WeightedShare(b, e, i)
  {
    WeightedSumPositive(a, e);
    WeightedSumPositive(b, e);
    CrossSum(a, b, e, b[i], a[i], s);
    ScaledOrder(a[i], e[i], Sum(Weighted(b, e)), b[i], Sum(Weighted(a, e)));
    FractionOrder(a[i] * e[i], Sum(Weighted(a, e)), b[i] * e[i], Sum(Weighted(b, e)));
  }

  lemma WeightedSumPositive(w: seq<real>, e: seq<real>)
    requires |w| == |e| && |w| > 0
    requires forall j :: 0 <= j < |w| ==> w[j] > 0.0 && e[j] > 0.0
    ensures Sum(Weighted(w, e)) > 0.0
  {
    forall j | 0 <= j < |w|
      ensures Weighted(w, e)[j] > 0.0
    {
      PositiveProduct(w[j], e[j]);
    }
    SumOfPositives(Weighted(w, e), 0);
  }

  lemma ScaledOrder(p: real, e: real, sb: real, q: real, sa: real)
    requires e > 0.0 && p * sb < q * sa
    ensures (p * e) * sb < (q * e) * sa
  {
    assert (p * e) * sb == e * (p * sb);
    assert (q * e) * sa == e * (q * sa);
  }

  lemma PositiveProduct(x: real, y: real)
    requires x > 0.0 && y > 0.0
    ensures x * y > 0.0
  {
  }
}
