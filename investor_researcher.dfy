/**
 * Investor research for outreach: the prompt with the investor's and the
 * startup's optional details, and the check that the parsed reply has a
 * truthy summary, investment focus, thesis alignment and confidence score.
 */
module InvestorResearcher {
  import opened Wrappers
  import opened Text
  import opened Json
  import opened Prompt
  import opened LlmReply

  datatype ResearcherInput = ResearcherInput(
    investorName: string,
    firm: Option<string>,
    title: Option<string>,
    linkedinUrl: Option<string>,
    twitterUrl: Option<string>,
    projectName: string,
    projectOneLiner: string,
    industry: Option<string>,
    stage: Option<string>)

  const ResearchError: string := "Failed to research investor with AI"
  const Model: string := "claude-sonnet-4-5-20250929"
  const MaxTokens: nat := 2048

  /** The members a reply must have, each truthy. */
  const RequiredMembers: seq<string> := ["summary", "investment_focus", "thesis_alignment", "confidence_score"]

  const SystemPrompt: string :=
    "You are an expert investor research analyst. Your job is to analyze an investor and determine how to best approach them for a startup fundraising opportunity.\n"
    + "\n"
    + "Given information about an investor and a startup, you will:\n"
    + "1. Find the investor's email address (if publicly available)\n"
    + "2. Summarize the investor's background and investment focus\n"
    + "3. Identify their key investment areas and thesis\n"
    + "4. Find recent investments they've made\n"
    + "5. Analyze how the startup aligns with their investment thesis\n"
    + "6. Suggest personalization angles for outreach\n"
    + "7. Provide talking points that would resonate\n"
    + "\n"
    + "Output your response as a JSON object with this structure:\n"
    + "{\n"
    + "  \"summary\": \"Brief 2-3 sentence summary of the investor\",\n"
    + "  \"email\": \"investor@example.com or null if not found\",\n"
    + "  \"investment_focus\": [\"Area 1\", \"Area 2\", \"Area 3\"],\n"
    + "  \"recent_investments\": [\"Company 1\", \"Company 2\", \"Company 3\"],\n"
    + "  \"thesis_alignment\": \"Explanation of how the startup aligns with investor's thesis\",\n"
    + "  \"personalization_angles\": [\"Angle 1\", \"Angle 2\", \"Angle 3\"],\n"
    + "  \"recommended_talking_points\": [\"Point 1\", \"Point 2\", \"Point 3\"],\n"
    + "  \"confidence_score\": 8\n"
    + "}\n"
    + "\n"
    + "IMPORTANT: Try to find the investor's email address from:\n"
    + "- Their LinkedIn profile\n"
    + "- Their firm's website (often listed on team pages)\n"
    + "- Their Twitter/X bio\n"
    + "- Public contact information\n"
    + "- Professional directories\n"
    + "\n"
    + "If you cannot find a publicly available email, set \"email\" to null.\n"
    + "\n"
    + "The confidence_score should be 1-10 based on how good a fit this investor is for the startup."

  /** The user prompt, line by line: optional investor details on lines 4 to 7, optional startup details on 12 and 13. */
  function UserPromptLines(input: ResearcherInput): (r: seq<string>)
    ensures |r| == 24
  {
    [PromptOpening, "", "**Investor:**", "- Name: " + input.investorName]
    + InvestorDetails(input)
    + ["", "**Startup to Pitch:**", "- Name: " + input.projectName, "- Description: " + input.projectOneLiner]
    + StartupDetails(input)
    + Instructions
  }

  const PromptOpening: string := "Research this investor for a potential investment opportunity:"

  function InvestorDetails(input: ResearcherInput): (r: seq<string>)
    ensures |r| == 4
  {
    [
      OptionalLine("- Firm: ", input.firm),
      OptionalLine("- Title: ", input.title),
      OptionalLine("- LinkedIn: ", input.linkedinUrl),
      OptionalLine("- Twitter: ", input.twitterUrl)
    ]
  }

  function StartupDetails(input: ResearcherInput): (r: seq<string>)
    ensures |r| == 2
  {
    [OptionalLine("- Industry: ", input.industry), OptionalLine("- Stage: ", input.stage)]
  }

  /** The closing instructions: look for the email address first, then analyse. */
  const Instructions: seq<string> := [
    "",
    "CRITICAL: First, try to find the investor's email address. Check:",
    "1. Their firm's website team page",
    "2. Their LinkedIn profile contact section",
    "3. Their Twitter/X bio",
    "4. Any public contact information",
    "",
    "Then analyze the investor and provide research insights. Focus on publicly available information about their investment thesis, portfolio, and interests.",
    "",
    "Return ONLY the JSON object, no additional text."
  ]

  /** Each optional detail line is empty unless its input is truthy, and then reads back that input. */
  lemma UserPromptReadBack(input: ResearcherInput)
    ensures var r := UserPromptLines(input);
      && (r[4] != "" <==> Given(input.firm))
      && (r[5] != "" <==> Given(input.title))
      && (r[6] != "" <==> Given(input.linkedinUrl))
      && (r[7] != "" <==> Given(input.twitterUrl))
      && (r[12] != "" <==> Given(input.industry))
      && (r[13] != "" <==> Given(input.stage))
    ensures var r := UserPromptLines(input);
      && ReadLine(r[4], "- Firm: ") == Present(input.firm)
      && ReadLine(r[5], "- Title: ") == Present(input.title)
      && ReadLine(r[6], "- LinkedIn: ") == Present(input.linkedinUrl)
      && ReadLine(r[7], "- Twitter: ") == Present(input.twitterUrl)
      && ReadLine(r[12], "- Industry: ") == Present(input.industry)
      && ReadLine(r[13], "- Stage: ") == Present(input.stage)
  {
    var r := UserPromptLines(input);
    assert r[4..8] == InvestorDetails(input);
    assert r[12..14] == StartupDetails(input);
    ReadOptionalLine("- Firm: ", input.firm);
    ReadOptionalLine("- Title: ", input.title);
    ReadOptionalLine("- LinkedIn: ", input.linkedinUrl);
    ReadOptionalLine("- Twitter: ", input.twitterUrl);
    ReadOptionalLine("- Industry: ", input.industry);
    ReadOptionalLine("- Stage: ", input.stage);
  }

  function Request(input: ResearcherInput): MessageRequest
  {
    MessageRequest(Model, MaxTokens, SystemPrompt, Lines(UserPromptLines(input)))
  }

  /** The check `!result.summary || !result.investment_focus || ...` passes: every required member is present and truthy. */
  predicate Acceptable(v: Json)
  {
    TruthyMember(v, "summary") && TruthyMember(v, "investment_focus")
    && TruthyMember(v, "thesis_alignment") && TruthyMember(v, "confidence_score")
  }

  /**
   * `researchInvestor` after the API call: the parsed object when it passes
   * the check, and ResearchError for every failure (reading a member of
   * `null` throws, which ends the same way).
   */
  function ResearchInvestor(outcome: ApiOutcome, parse: string -> Option<Json>): (r: Result<Json, string>)
    ensures r.Failure? ==> r.error == ResearchError
    ensures r.Success? <==> ParsedReply(outcome, parse).Some? && Acceptable(ParsedReply(outcome, parse).value)
    ensures r.Success? ==> r.value == ParsedReply(outcome, parse).value && r.value.JObject?
  {
    match ParsedReply(outcome, parse)
    case None => Failure(ResearchError)
    case Some(v) =>
      if v.JNull? then Failure(ResearchError)
      else if Acceptable(v) then Success(v)
      else Failure(ResearchError)
  }

  /**
   * Only the four checked members decide: the email, the recent investments,
   * the angles and the talking points can be anything or missing.
   */
  lemma VerdictIgnoresOtherMembers(members: seq<(string, Json)>, extra: seq<(string, Json)>)
    requires forall i :: 0 <= i < |extra| ==> extra[i].0 !in RequiredMembers
    ensures Acceptable(JObject(members + extra)) == Acceptable(JObject(members))
  {
    LookupSkipsOtherKeys(members, extra, "summary");
    LookupSkipsOtherKeys(members, extra, "investment_focus");
    LookupSkipsOtherKeys(members, extra, "thesis_alignment");
    LookupSkipsOtherKeys(members, extra, "confidence_score");
  }

  /**
   * A confidence score of 0 fails the check, like a missing one, while an empty
   * investment-focus list passes it: an array is truthy even when empty.
   */
  lemma TruthinessEdgeCases(summary: string, thesis: string, score: real)
    requires summary != "" && thesis != ""
    ensures var v := JObject([("summary", JString(summary)), ("investment_focus", JArray([])), ("thesis_alignment", JString(thesis)), ("confidence_score", JNumber(score))]);
      Acceptable(v) <==> score != 0.0
  {
    var m := [("summary", JString(summary)), ("investment_focus", JArray([])), ("thesis_alignment", JString(thesis)), ("confidence_score", JNumber(score))];
    var m3 := [("summary", JString(summary)), ("investment_focus", JArray([])), ("thesis_alignment", JString(thesis))];
    var m2 := [("summary", JString(summary)), ("investment_focus", JArray([]))];
    var m1 := [("summary", JString(summary))];
    assert m[..3] == m3 && m3[..2] == m2 && m2[..1] == m1;
    assert Lookup(m, "thesis_alignment") == Lookup(m3, "thesis_alignment") == Some(JString(thesis));
    assert Lookup(m, "investment_focus") == Lookup(m3, "investment_focus") == Lookup(m2, "investment_focus") == Some(JArray([]));
    assert Lookup(m, "summary") == Lookup(m3, "summary") == Lookup(m2, "summary") == Lookup(m1, "summary");
  }
}
