/** The request-sanitising helpers of the HTTP layer (src/api.ts): clamping,
    profile defaulting, history filtering and required-field validation. The
    default profile, read from the environment by the source, is a
    parameter. */
module Api {
  import opened Types

  /** `clamp01`: the nearest value in [0, 1]. */
  function Clamp01(value: real): (r: real)
    ensures 0.0 <= r <= 1.0
    ensures 0.0 <= value <= 1.0 ==> r == value
    ensures value < 0.0 ==> r == 0.0
    ensures value > 1.0 ==> r == 1.0
  {
    var lifted := if value < 0.0 then 0.0 else value;
    if lifted > 1.0 then 1.0 else lifted
  }

  /** `Partial<Profile>`: each field may be missing (`undefined` or `null`). */
  datatype PartialProfile = PartialProfile(
    relationship: Option<Relationship>, taskUrgency: Option<real>,
    futureImportance: Option<real>, tolerance: Option<real>)

  /** `x ?? fallback`. */
  function OrElse<T>(x: Option<T>, fallback: T): T
  {
    match x
    case Some(v) => v
    case None => fallback
  }

  /** Every numeric knob of the profile lies in [0, 1]. */
  predicate Bounded(p: Profile)
  {
    && 0.0 <= p.taskUrgency <= 1.0
    && 0.0 <= p.futureImportance <= 1.0
    && 0.0 <= p.tolerance <= 1.0
  }

  /** `sanitizeProfile`: no profile at all yields the default exactly as
      configured; otherwise every numeric field is clamped, taken from the
      incoming profile when present and from the default when missing, and
      the relationship is taken over as given. */
  function SanitizeProfile(defaults: Profile, incoming: Option<PartialProfile>): (p: Profile)
    ensures incoming.None? ==> p == defaults
    ensures incoming.Some? ==> Bounded(p)
    ensures incoming.Some? ==>
              p.relationship == OrElse(incoming.value.relationship, defaults.relationship)
    ensures incoming.Some? ==> p.taskUrgency == Clamp01(OrElse(incoming.value.taskUrgency, defaults.taskUrgency))
    ensures incoming.Some? ==>
              p.futureImportance == Clamp01(OrElse(incoming.value.futureImportance, defaults.futureImportance))
    ensures incoming.Some? ==> p.tolerance == Clamp01(OrElse(incoming.value.tolerance, defaults.tolerance))
  {
    match incoming
    case None => defaults
    case Some(q) =>
      Profile(
        OrElse(q.relationship, defaults.relationship),
        Clamp01(OrElse(q.taskUrgency, defaults.taskUrgency)),
        Clamp01(OrElse(q.futureImportance, defaults.futureImportance)),
        Clamp01(OrElse(q.tolerance, defaults.tolerance)))
  }

  /** A present field inside [0, 1] is kept as sent; a missing one falls back
      to the default, clamped; a present one outside [0, 1] is moved to the
      nearer bound. */
  lemma SanitizeFieldRules(defaults: Profile, q: PartialProfile)
    ensures var p := SanitizeProfile(defaults, Some(q));
            && (q.taskUrgency.Some? && 0.0 <= q.taskUrgency.value <= 1.0 ==> p.taskUrgency == q.taskUrgency.value)
            && (q.taskUrgency.None? ==> p.taskUrgency == Clamp01(defaults.taskUrgency))
            && (q.taskUrgency.Some? && q.taskUrgency.value > 1.0 ==> p.taskUrgency == 1.0)
            && (q.taskUrgency.Some? && q.taskUrgency.value < 0.0 ==> p.taskUrgency == 0.0)
            && (q.futureImportance.Some? && 0.0 <= q.futureImportance.value <= 1.0 ==>
                  p.futureImportance == q.futureImportance.value)
            && (q.futureImportance.None? ==> p.futureImportance == Clamp01(defaults.futureImportance))
            && (q.futureImportance.Some? && q.futureImportance.value > 1.0 ==> p.futureImportance == 1.0)
            && (q.futureImportance.Some? && q.futureImportance.value < 0.0 ==> p.futureImportance == 0.0)
            && (q.tolerance.Some? && 0.0 <= q.tolerance.value <= 1.0 ==> p.tolerance == q.tolerance.value)
            && (q.tolerance.None? ==> p.tolerance == Clamp01(defaults.tolerance))
            && (q.tolerance.Some? && q.tolerance.value > 1.0 ==> p.tolerance == 1.0)
            && (q.tolerance.Some? && q.tolerance.value < 0.0 ==> p.tolerance == 0.0)
  {
  }

  /** The fields of a complete profile, all present. */
  function AsPartial(p: Profile): PartialProfile
  {
    PartialProfile(Some(p.relationship), Some(p.taskUrgency), Some(p.futureImportance), Some(p.tolerance))
  }

  /** Sending a complete in-range profile gives back that profile, whatever
      the default; an empty override gives the default, clamped. */
  lemma SanitizeRoundTrip(defaults: Profile, p: Profile)
    requires Bounded(p)
    ensures SanitizeProfile(defaults, Some(AsPartial(p))) == p
    ensures SanitizeProfile(defaults, Some(PartialProfile(None, None, None, None))) ==
            Profile(defaults.relationship, Clamp01(defaults.taskUrgency),
                    Clamp01(defaults.futureImportance), Clamp01(defaults.tolerance))
  {
  }

  /** Sanitizing is idempotent: a sanitized profile sent back comes out
      unchanged, and with an in-range default every result is in range. */
  lemma SanitizeIdempotent(defaults: Profile, incoming: Option<PartialProfile>)
    requires Bounded(defaults)
    ensures Bounded(SanitizeProfile(defaults, incoming))
    ensures var p := SanitizeProfile(defaults, incoming);
            SanitizeProfile(defaults, Some(AsPartial(p))) == p
  {
    var p := SanitizeProfile(defaults, incoming);
    SanitizeRoundTrip(defaults, p);
  }

  /** One entry of the JSON `history` array: a string or any other value. */
  datatype HistoryItem = Text(text: string) | NonText

  /** The `filter` keeping the string entries. */
  function Strings(items: seq<HistoryItem>): (r: seq<string>)
    ensures |r| <= |items|
  {
    if items == [] then []
    else if items[0].Text? then [items[0].text] + Strings(items[1..])
    else Strings(items[1..])
  }

  /** `ensureHistory`: no history is the empty history; otherwise the string
      entries, in their order. */
  function EnsureHistory(history: Option<seq<HistoryItem>>): (r: seq<string>)
    ensures history.None? ==> r == []
    ensures history.Some? ==> forall s :: s in r <==> Text(s) in history.value
  {
    match history
    case None => []
    case Some(items) => StringsMembership(items); Strings(items)
  }

  /** A string is kept iff it was one of the entries. */
  lemma {:induction false} StringsMembership(items: seq<HistoryItem>)
    ensures forall s :: s in Strings(items) <==> Text(s) in items
  {
    if items != [] {
      StringsMembership(items[1..]);
      assert items == [items[0]] + items[1..];
    }
  }

  /** The filter keeps the order: filtering a concatenation concatenates the
      filtered parts. */
  lemma {:induction false} StringsAppend(a: seq<HistoryItem>, b: seq<HistoryItem>)
    ensures Strings(a + b) == Strings(a) + Strings(b)
  {
    if a == [] {
      assert a + b == b;
    } else {
      assert (a + b)[0] == a[0] && (a + b)[1..] == a[1..] + b;
      StringsAppend(a[1..], b);
    }
  }

  /** A history made only of strings passes through unchanged, and the
      non-string entries are exactly what is dropped. */
  lemma {:induction false} StringsCount(items: seq<HistoryItem>)
    ensures |Strings(items)| == |items| - NonTextCount(items)
    ensures NonTextCount(items) == 0 ==> Strings(items) == TextsOf(items)
  {
    if items != [] {
      StringsCount(items[1..]);
    }
  }

  function NonTextCount(items: seq<HistoryItem>): nat
  {
    if items == [] then 0 else (if items[0].NonText? then 1 else 0) + NonTextCount(items[1..])
  }

  /** The text of every entry, for a history of strings only. */
  function TextsOf(items: seq<HistoryItem>): seq<string>
    requires NonTextCount(items) == 0
  {
    if items == [] then [] else [items[0].text] + TextsOf(items[1..])
  }

  /** The request fields `validateBody` inspects; each may be missing. */
  datatype RequestBody = RequestBody(role: Option<string>, timeContext: Option<string>, utterance: Option<string>)

  /** JavaScript truthiness of an optional string: present and non-empty. */
  predicate Given(field: Option<string>)
  {
    field.Some? && field.value != ""
  }

  const RoleRequired: string := "role is required"
  const TimeContextRequired: string := "time_context is required"
  const UtteranceRequired: string := "utterance is required"

  /** `validateBody`: the message for the first missing field, in the order
      role, time_context, utterance; nothing when all three are given. */
  function ValidateBody(body: RequestBody): (r: Option<string>)
    ensures r.None? <==> Given(body.role) && Given(body.timeContext) && Given(body.utterance)
    ensures !Given(body.role) ==> r == Some(RoleRequired)
    ensures Given(body.role) && !Given(body.timeContext) ==> r == Some(TimeContextRequired)
    ensures Given(body.role) && Given(body.timeContext) && !Given(body.utterance) ==> r == Some(UtteranceRequired)
  {
    if !Given(body.role) then Some(RoleRequired)
    else if !Given(body.timeContext) then Some(TimeContextRequired)
    else if !Given(body.utterance) then Some(UtteranceRequired)
    else None
  }

  /** A body without a role is rejected with an error, whatever else it
      carries; an empty role counts as missing. */
  lemma MissingRoleRejected(timeContext: Option<string>, utterance: Option<string>)
    ensures ValidateBody(RequestBody(None, timeContext, utterance)) == Some(RoleRequired)
    ensures ValidateBody(RequestBody(Some(""), timeContext, utterance)) == Some(RoleRequired)
  {
  }
}
