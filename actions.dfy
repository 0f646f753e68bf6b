/** Korean phrasing templates (src/actions.ts): the first table entry whose
    action matches and one of whose role keywords occurs in the role text,
    else a generic sentence, followed by a culture-specific suffix. */
module Actions {
  import opened Types
  import opened Text

  datatype TemplateEntry = TemplateEntry(roles: seq<string>, action: string, text: string)

  /** `TEMPLATES`, in table order. */
  const Templates: seq<TemplateEntry> := [
    TemplateEntry(["상사", "manager"], "HARD_GO",
      "팀장님, 오늘은 약속드린 시간까지 집중했으니 마저 정리하고 먼저 퇴근하겠습니다."),
    TemplateEntry(["상사", "manager"], "SOFT_GO",
      "팀장님, 지금 마무리된 부분 공유드리고 남은 항목은 내일 아침에 정리해도 괜찮을까요?"),
    TemplateEntry(["상사", "manager"], "CLARIFY",
      "이번 요청의 핵심 기대치가 무엇인지 다시 한번 정리해 주실 수 있을까요?"),
    TemplateEntry(["동료", "peer"], "STAY_SHORT",
      "지금 급한 부분만 같이 맞추고 30분 뒤에는 각자 정리하는 걸로 할까?"),
    TemplateEntry(["동료", "peer"], "SOFT_GO",
      "오늘은 여기까지 하고 내일 오전에 이어서 하면 어떨까?"),
    TemplateEntry(["고객", "client"], "CLARIFY",
      "말씀 주신 범위를 다시 확인하고 싶은데, 가장 우선순위가 무엇인지 알려주실 수 있을까요?"),
    TemplateEntry(["고객", "client"], "STAY_FULL",
      "오늘은 약속하신 마감까지 책임지고 지원드리겠습니다."),
    TemplateEntry(["가족", "family"], "SOFT_GO",
      "오늘은 조금 쉬고 싶어서 그런데, 내일 아침에 다시 이야기해도 될까?"),
    TemplateEntry(["파트너", "partner"], "CARE_SUPPORT",
      "지금 힘든 것 같아 보여서, 내가 도울 수 있는 게 있으면 말해줘."),
    TemplateEntry(["벤더", "vendor"], "STAY_SHORT",
      "납기 조정을 위해 지금 핵심 이슈만 먼저 해결하고 세부 사항은 다음 미팅에서 조율하죠."),
    TemplateEntry(["교수", "professor"], "HELP_BRIDGE",
      "마감 전에 필요한 기준을 정확히 이해하고 싶습니다. 중요한 포인트를 짚어주실 수 있을까요?")
  ]

  /** The sentence used when no entry matches. */
  const Fallback: string := "상황을 더 알고 싶어요. 핵심 의도를 공유해 주시면 맞춤 대응할게요."

  const PressureSuffix: string := " (약속 이행 강조)"
  const WlbSuffix: string := " (균형 존중 강조)"

  /** `culturePolish`: a marker appended under "pressure" and "wlb"; the text
      itself always comes first and is kept exactly under "balanced". */
  function CulturePolish(culture: CultureMode, template: string): (r: string)
    ensures StartsWith(r, template)
    ensures r == template <==> culture == Balanced
    ensures culture == Pressure ==> r[|template|..] == PressureSuffix
    ensures culture == Wlb ==> r[|template|..] == WlbSuffix
  {
    match culture
    case Pressure => template + PressureSuffix
    case Wlb => template + WlbSuffix
    case Balanced => template
  }

  /** The `find` predicate: same action, and some role keyword occurs in the
      role text exactly as written. */
  predicate Matches(entry: TemplateEntry, role: string, action: string)
  {
    entry.action == action && exists k :: 0 <= k < |entry.roles| && Contains(role, entry.roles[k])
  }

  /** The position of the first matching entry, if any. */
  function FirstMatch(entries: seq<TemplateEntry>, role: string, action: string): (r: Option<nat>)
    ensures r.Some? ==> r.value < |entries| && Matches(entries[r.value], role, action)
                        && forall j :: 0 <= j < r.value ==> !Matches(entries[j], role, action)
    ensures r.None? ==> forall j :: 0 <= j < |entries| ==> !Matches(entries[j], role, action)
  {
    if entries == [] then None
    else if Matches(entries[0], role, action) then Some(0)
    else
      match FirstMatch(entries[1..], role, action)
      case None => None
      case Some(k) => Some(k + 1)
  }

  /** The sentence `renderActionTemplate` selects before polishing. */
  function BaseText(role: string, action: string): string
  {
    match FirstMatch(Templates, role, action)
    case Some(k) => Templates[k].text
    case None => Fallback
  }

  /** `renderActionTemplate`. */
  function RenderActionTemplate(role: string, action: string, culture: CultureMode): (r: string)
    ensures StartsWith(r, BaseText(role, action)) && |r| > 0
  {
    CulturePolish(culture, BaseText(role, action))
  }

  /** The matched entry's sentence is used exactly when some entry matches;
      it is the first match in table order. */
  lemma RenderUsesFirstMatch(role: string, action: string, culture: CultureMode, k: nat)
    requires k < |Templates| && Matches(Templates[k], role, action)
    requires forall j :: 0 <= j < k ==> !Matches(Templates[j], role, action)
    ensures RenderActionTemplate(role, action, culture) == CulturePolish(culture, Templates[k].text)
  {
  }

  /** Without a matching entry the generic sentence is polished instead. */
  lemma RenderFallsBack(role: string, action: string, culture: CultureMode)
    requires forall j :: 0 <= j < |Templates| ==> !Matches(Templates[j], role, action)
    ensures RenderActionTemplate(role, action, culture) == CulturePolish(culture, Fallback)
  {
    assert FirstMatch(Templates, role, action).None?;
  }

  /** Role matching is case-sensitive: "Manager" contains neither "상사" nor
      "manager", so the manager's HARD_GO sentence is not chosen. */
  lemma CapitalisedManagerFallsBack()
    ensures RenderActionTemplate("Manager", "HARD_GO", Balanced) == Fallback
  {
    assert "Manager"[0..7][0] != "manager"[0];
    assert !Contains("Manager", "manager");
    forall i | 0 <= i <= |"Manager"| - |"상사"|
      ensures !OccursAt("Manager", "상사", i)
    {
      assert "Manager"[i..i + 2][0] == "Manager"[i];
    }
    assert !Matches(Templates[0], "Manager", "HARD_GO");
    RenderFallsBack("Manager", "HARD_GO", Balanced);
  }

  /** Table order decides: a role naming both a manager and a peer gets the
      manager's SOFT_GO sentence, which precedes the peer's. */
  lemma TableOrderDecides(role: string, culture: CultureMode)
    requires Contains(role, "manager")
    ensures RenderActionTemplate(role, "SOFT_GO", culture) == CulturePolish(culture, Templates[1].text)
  {
    assert Templates[1].roles[1] == "manager";
    assert Matches(Templates[1], role, "SOFT_GO");
    RenderUsesFirstMatch(role, "SOFT_GO", culture, 1);
  }
}
