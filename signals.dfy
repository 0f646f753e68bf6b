/** Signal extraction and likelihood lookup (src/signals.ts). Each signal
    pattern is an alternation of literals, so "the pattern matches" is "one of
    its literals occurs in the utterance". */
module Signals {
  import opened Types
  import opened Text

  const Question := "question"
  const CollectiveSubject := "collective_subject"
  const Immediacy := "immediacy"
  const Softener := "softener"
  const Authority := "authority"
  const Gratitude := "gratitude"
  const Apology := "apology"
  const Suggestion := "suggestion"
  const BoundaryPush := "boundary_push"
  const Care := "care"
  const Silence := "silence"

  /** The order in which the extractor tests and records the tags. */
  const CheckOrder: seq<string> :=
    [Question, CollectiveSubject, Immediacy, Softener, Authority, Gratitude,
     Apology, Suggestion, BoundaryPush, Care, Silence]

  /** The literal alternatives of the ten patterns (`우리\s*` needs only "우리"). */
  const QuestionPattern: seq<string> := ["?", "나요", "까?"]
  const CollectivePattern: seq<string> := ["다들", "모두", "우리", "전체"]
  const ImmediacyPattern: seq<string> := ["지금", "바로", "당장", "오늘 안"]
  const SoftenerPattern: seq<string> := ["가능하면", "좀", "아무래도", "혹시", "괜찮으시다면"]
  const AuthorityPattern: seq<string> := ["당연히", "필수", "규정", "원칙", "반드시"]
  const GratitudePattern: seq<string> := ["감사", "고맙", "고마워", "덕분"]
  const ApologyPattern: seq<string> := ["미안", "죄송", "송구"]
  const SuggestionPattern: seq<string> := ["해볼까", "어떨까요", "하자", "합시다", "어때"]
  const BoundaryPattern: seq<string> := ["무조건", "해야만", "끝까지", "버티"]
  const CarePattern: seq<string> := ["괜찮", "걱정", "살펴", "도와줄게"]

  predicate AsksQuestion(utterance: string) { ContainsAny(utterance, QuestionPattern) }
  predicate HasCollectiveSubject(utterance: string) { ContainsAny(utterance, CollectivePattern) }
  predicate HasImmediacy(utterance: string) { ContainsAny(utterance, ImmediacyPattern) }
  predicate HasSoftener(utterance: string) { ContainsAny(utterance, SoftenerPattern) }
  predicate HasAuthority(utterance: string) { ContainsAny(utterance, AuthorityPattern) }
  predicate HasGratitude(utterance: string) { ContainsAny(utterance, GratitudePattern) }
  predicate HasApology(utterance: string) { ContainsAny(utterance, ApologyPattern) }
  predicate HasSuggestion(utterance: string) { ContainsAny(utterance, SuggestionPattern) }
  predicate HasBoundaryPush(utterance: string) { ContainsAny(utterance, BoundaryPattern) }
  predicate HasCare(utterance: string) { ContainsAny(utterance, CarePattern) }

  /** Whether the extractor's `k`-th test fires on `utterance`. */
  predicate Fires(k: nat, utterance: string)
    requires k < |CheckOrder|
  {
    match k
    case 0 => AsksQuestion(utterance)
    case 1 => HasCollectiveSubject(utterance)
    case 2 => HasImmediacy(utterance)
    case 3 => HasSoftener(utterance)
    case 4 => HasAuthority(utterance)
    case 5 => HasGratitude(utterance)
    case 6 => HasApology(utterance)
    case 7 => HasSuggestion(utterance)
    case 8 => HasBoundaryPush(utterance)
    case 9 => HasCare(utterance)
    case _ => IsBlank(Lower(utterance))
  }

  /** The tags of the first `n` checks whose tests fire, in check order. */
  function Keep(n: nat, utterance: string): (r: seq<string>)
    requires n <= |CheckOrder|
  {
    if n == 0 then []
    else Keep(n - 1, utterance) + (if Fires(n - 1, utterance) then [CheckOrder[n - 1]] else [])
  }

  /** What `extractSignals` returns. */
  function SignalsOf(utterance: string): seq<string>
  {
    Keep(|CheckOrder|, utterance)
  }

  /** `Set.prototype.add` on an insertion-ordered set held as a sequence. */
  function AddTag(tags: seq<string>, tag: string): seq<string>
  {
    if tag in tags then tags else tags + [tag]
  }

  /** Runs the eleven tests in order, adding each firing tag to an
      insertion-ordered set. */
  method ExtractSignals(utterance: string) returns (tags: seq<string>)
    ensures tags == SignalsOf(utterance)
  {
    var signals: seq<string> := [];
    ghost var k := 0;
    var lower := Lower(utterance);
    signals := AddIf(signals, AsksQuestion(utterance), Question, utterance, k);
    k := k + 1;
    signals := AddIf(signals, HasCollectiveSubject(utterance), CollectiveSubject, utterance, k);
    k := k + 1;
    signals := AddIf(signals, HasImmediacy(utterance), Immediacy, utterance, k);
    k := k + 1;
    signals := AddIf(signals, HasSoftener(utterance), Softener, utterance, k);
    k := k + 1;
    signals := AddIf(signals, HasAuthority(utterance), Authority, utterance, k);
    k := k + 1;
    signals := AddIf(signals, HasGratitude(utterance), Gratitude, utterance, k);
    k := k + 1;
    signals := AddIf(signals, HasApology(utterance), Apology, utterance, k);
    k := k + 1;
    signals := AddIf(signals, HasSuggestion(utterance), Suggestion, utterance, k);
    k := k + 1;
    signals := AddIf(signals, HasBoundaryPush(utterance), BoundaryPush, utterance, k);
    k := k + 1;
    signals := AddIf(signals, HasCare(utterance), Care, utterance, k);
    k := k + 1;
    signals := AddIf(signals, IsBlank(lower), Silence, utterance, k);
    tags := signals;
  }

  /** `if (test) signals.add(tag)` for the `k`-th check. */
  method AddIf(signals: seq<string>, fired: bool, tag: string, ghost utterance: string, ghost k: nat)
    returns (next: seq<string>)
    requires k < |CheckOrder| && tag == CheckOrder[k] && fired == Fires(k, utterance)
    requires signals == Keep(k, utterance)
    ensures next == Keep(k + 1, utterance)
  {
    next := signals;
    if fired {
      next := AddTag(next, tag);
    }
    KeepStep(utterance, k);
  }

  lemma CheckOrderDistinct()
    ensures NoDuplicates(CheckOrder)
  {
  }

  /** Running check `k` appends its tag exactly when the test fires: the tag
      is not yet in the set. */
  lemma KeepStep(utterance: string, k: nat)
    requires k < |CheckOrder|
    ensures Keep(k + 1, utterance)
            == Keep(k, utterance) + if Fires(k, utterance) then [CheckOrder[k]] else []
    ensures CheckOrder[k] !in Keep(k, utterance)
  {
    KeepMembership(k, utterance);
    CheckOrderDistinct();
  }

  /** A tag is among the first `n` kept iff it is one of the first `n` checks
      and its test fires. */
  lemma {:induction false} KeepMembership(n: nat, utterance: string)
    requires n <= |CheckOrder|
    ensures forall k :: 0 <= k < |CheckOrder| ==> (CheckOrder[k] in Keep(n, utterance) <==> k < n && Fires(k, utterance))
  {
    if n > 0 {
      KeepMembership(n - 1, utterance);
      CheckOrderDistinct();
    }
  }

  /** The tags of the first `n` checks whose tests fire, in check order, come
      from strictly increasing check positions. */
  lemma {:induction false} KeepIndices(n: nat, utterance: string) returns (ks: seq<nat>)
    requires n <= |CheckOrder|
    ensures |ks| == |Keep(n, utterance)|
    ensures forall i :: 0 <= i < |ks| ==>
              ks[i] < n && Fires(ks[i], utterance) && Keep(n, utterance)[i] == CheckOrder[ks[i]]
    ensures forall i, j :: 0 <= i < j < |ks| ==> ks[i] < ks[j]
  {
    if n == 0 {
      ks := [];
    } else {
      ks := KeepIndices(n - 1, utterance);
      if Fires(n - 1, utterance) {
        ks := ks + [n - 1];
      }
    }
  }

  /** Exactly the tags whose tests fire are reported, each once, in check
      order: the result has at most eleven entries. */
  lemma SignalsCharacterised(utterance: string) returns (ks: seq<nat>)
    ensures forall k :: 0 <= k < |CheckOrder| ==> (CheckOrder[k] in SignalsOf(utterance) <==> Fires(k, utterance))
    ensures forall t :: t in SignalsOf(utterance) ==> t in CheckOrder
    ensures NoDuplicates(SignalsOf(utterance))
    ensures |ks| == |SignalsOf(utterance)| <= |CheckOrder|
    ensures forall i :: 0 <= i < |ks| ==> ks[i] < |CheckOrder| && SignalsOf(utterance)[i] == CheckOrder[ks[i]]
    ensures forall i, j :: 0 <= i < j < |ks| ==> ks[i] < ks[j]
  {
    KeepMembership(|CheckOrder|, utterance);
    ks := KeepIndices(|CheckOrder|, utterance);
    CheckOrderDistinct();
    IncreasingBounded(ks, |CheckOrder|);
  }

  lemma {:induction false} IncreasingBounded(ks: seq<nat>, n: nat)
    requires forall i :: 0 <= i < |ks| ==> ks[i] < n
    requires forall i, j :: 0 <= i < j < |ks| ==> ks[i] < ks[j]
    ensures |ks| <= n
  {
    if ks != [] {
      var m := |ks| - 1;
      IncreasingBounded(ks[..m], ks[m]);
    }
  }

  /** No literal of an alternation occurs in blank text when each starts with
      a visible character. */
  lemma BlankMatchesNone(utterance: string, alternatives: seq<string>)
    requires IsBlank(utterance)
    requires forall j :: 0 <= j < |alternatives| ==> |alternatives[j]| > 0 && !IsWhitespace(alternatives[j][0])
    ensures !ContainsAny(utterance, alternatives)
  {
    forall j | 0 <= j < |alternatives|
      ensures !Contains(utterance, alternatives[j])
    {
      BlankContainsNoVisible(utterance, alternatives[j]);
    }
  }

  /** Blank text fires none of the ten pattern tests. */
  lemma BlankFiresNoPattern(utterance: string, k: nat)
    requires IsBlank(utterance) && k < |CheckOrder| - 1
    ensures !Fires(k, utterance)
  {
    match k
    case 0 => BlankMatchesNone(utterance, QuestionPattern);
    case 1 => BlankMatchesNone(utterance, CollectivePattern);
    case 2 => BlankMatchesNone(utterance, ImmediacyPattern);
    case 3 => BlankMatchesNone(utterance, SoftenerPattern);
    case 4 => BlankMatchesNone(utterance, AuthorityPattern);
    case 5 => BlankMatchesNone(utterance, GratitudePattern);
    case 6 => BlankMatchesNone(utterance, ApologyPattern);
    case 7 => BlankMatchesNone(utterance, SuggestionPattern);
    case 8 => BlankMatchesNone(utterance, BoundaryPattern);
    case 9 => BlankMatchesNone(utterance, CarePattern);
  }

  /** Silence is reported exactly for blank text, and then alone. */
  lemma SilenceIsAlone(utterance: string)
    ensures Silence in SignalsOf(utterance) <==> IsBlank(utterance)
    ensures IsBlank(utterance) ==> SignalsOf(utterance) == [Silence]
  {
    var ks := SignalsCharacterised(utterance);
    LowerKeepsBlank(utterance);
    assert CheckOrder[10] == Silence;
    if IsBlank(utterance) {
      var n := |CheckOrder| - 1;
      var pre := KeepIndices(n, utterance);
      if pre != [] {
        BlankFiresNoPattern(utterance, pre[0]);
      }
      assert Keep(n, utterance) == [];
    }
  }

  /** The empty utterance yields just the silence tag. */
  lemma EmptyIsSilence()
    ensures SignalsOf("") == [Silence]
  {
    SilenceIsAlone("");
  }

  /** The smoothing weight of the fallback distribution. */
  const Smoothing: real := 0.15

  /** A table of likelihood vectors, keyed by signal tag. Every lookup of an
      unknown tag reads the intents of the "question" entry. */
  type LikelihoodTable = map<string, map<Intent, real>>

  /** `likelihoodForSignal`: a known tag's vector verbatim; otherwise the
      smoothed uniform vector over the intents of the "question" entry, whose
      every value is exactly `1 / n`. */
  function LikelihoodFor(table: LikelihoodTable, signal: string): (r: map<Intent, real>)
    requires signal in table || Question in table
    ensures signal in table ==> r == table[signal]
    ensures signal !in table ==>
              r.Keys == table[Question].Keys
              && forall i :: i in r ==> r[i] == 1.0 / |r.Keys| as real
  {
    if signal in table then table[signal]
    else
      var keys := table[Question].Keys;
      if |keys| == 0 then map[]
      else
        var uniform := 1.0 / |keys| as real;
        map i | i in keys :: Smoothing * uniform + (1.0 - Smoothing) * uniform
  }

  /** When the "question" entry covers all seven intents, the fallback for an
      unknown tag is a distribution: its values, in intent order, sum to 1. */
  lemma FallbackIsDistribution(table: LikelihoodTable, signal: string)
    requires signal !in table && Question in table
    requires forall i: Intent :: i in table[Question]
    ensures var r := LikelihoodFor(table, signal);
            Sum(seq(IntentCount, k requires 0 <= k < IntentCount => r[Intents[k]])) == 1.0
  {
    var r := LikelihoodFor(table, signal);
    IntentSetSize();
    assert table[Question].Keys == set i: Intent | i in Intents;
    var s := seq(IntentCount, k requires 0 <= k < IntentCount => r[Intents[k]]);
    SumConstant(s, 1.0 / 7.0);
  }
}
