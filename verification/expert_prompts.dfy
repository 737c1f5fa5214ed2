/**
 * The closed set of experts and the read-only catalogue that gives each
 * expert its system prompt.
 */
module ExpertPrompts {
  import opened Wrappers

  /** The three experts, in declaration order. */
  datatype ExpertType = Programming | Marketing | Legal

  /** The string value each member carries (the enumeration derives from `str`). */
  function Value(e: ExpertType): string {
    match e
    case Programming => "programming"
    case Marketing => "marketing"
    case Legal => "legal"
  }

  /** Lookup of a member by its value; any other string names no expert. */
  function FromValue(s: string): (r: Option<ExpertType>)
    ensures r.Some? ==> Value(r.value) == s
    ensures r.None? <==> forall e :: Value(e) != s
  {
    if s == "programming" then Some(Programming)
    else if s == "marketing" then Some(Marketing)
    else if s == "legal" then Some(Legal)
    else None
  }

  /** Every expert is recovered from its own value, so the values are pairwise distinct. */
  lemma ValueRoundTrip(e: ExpertType)
    ensures FromValue(Value(e)) == Some(e)
  {
  }

  /** The members in the order that iterating over the enumeration visits them. */
  const AllExperts: seq<ExpertType> := [Programming, Marketing, Legal]

  /** The enumeration has exactly three members, each listed once. */
  lemma AllExpertsEnumerates()
    ensures |AllExperts| == 3
    ensures forall e :: e in AllExperts
    ensures forall i, j :: 0 <= i < j < |AllExperts| ==> AllExperts[i] != AllExperts[j]
  {
    forall e ensures e in AllExperts {
      assert AllExperts[Position(e)] == e;
    }
  }

  /** Where an expert stands in the iteration order. */
  function Position(e: ExpertType): (i: nat)
    ensures i < |AllExperts| && AllExperts[i] == e
  {
    match e
    case Programming => 0
    case Marketing => 1
    case Legal => 2
  }

  // Each prompt text is stood in for by a short phrase naming the persona it sets up.
  const ProgrammingPrompt: string := "Senior software engineer"
  const MarketingPrompt: string := "Digital marketing consultant"
  const LegalPrompt: string := "Civil and commercial lawyer"

  /** The prompt catalogue: defined for every expert and never empty. */
  function SystemPromptForExpert(e: ExpertType): (p: string)
    ensures |p| > 0
  {
    match e
    case Programming => ProgrammingPrompt
    case Marketing => MarketingPrompt
    case Legal => LegalPrompt
  }

  /** Different experts never share a prompt. */
  lemma PromptsPairwiseDistinct(a: ExpertType, b: ExpertType)
    ensures SystemPromptForExpert(a) == SystemPromptForExpert(b) ==> a == b
  {
  }
}
