/**
 * Investor discovery: the prompt asking the model for `count` investor matches,
 * and the handling of its reply (fence strip, parse, truncation to `count`,
 * one error message for every failure).
 */
module InvestorFinder {
  import opened Wrappers
  import opened Text
  import opened Json
  import opened Prompt
  import opened LlmReply

  datatype FinderInput = FinderInput(
    projectName: string,
    oneLiner: string,
    industry: Option<string>,
    stage: Option<string>,
    targetGeography: Option<string>,
    additionalCriteria: Option<string>,
    count: int)

  const FindError: string := "Failed to find investors with AI"
  const Model: string := "claude-3-5-sonnet-20240620"
  const MaxTokens: nat := 4096

  const IndustryTag: string := "**Industry:** "
  const StageTag: string := "**Stage:** "
  const GeographyTag: string := "**Target Geography:** "
  const CriteriaTag: string := "**Additional Criteria:** "

  /** The system prompt; only its third line depends on the requested count. */
  function SystemPrompt(count: int): string
  {
    Lines([RoleLine, "", IdentifyPrefix + IntToString(count) + IdentifySuffix] + SystemRules)
  }

  /** What precedes the count in the system prompt: the role line, an empty line and the start of the third line. */
  const CountLead: string := RoleLine + "\n" + "\n" + IdentifyPrefix

  /** Reading the requested count back from a system prompt with `parseInt`. */
  function PromptCount(systemPrompt: string): Option<int>
  {
    if StartsWith(systemPrompt, CountLead) then ParseInt(systemPrompt[|CountLead|..]) else None
  }

  /** The system prompt asks for exactly the requested count: `parseInt` reads it back from the third line. */
  lemma SystemPromptCountReadsBack(count: int)
    ensures PromptCount(SystemPrompt(count)) == Some(count)
  {
    JoinedCount(RoleLine, IdentifyPrefix, IdentifyWords, SystemRules, count);
  }

  /** A number printed after a known lead on the third of several lines reads back after that lead. */
  lemma JoinedCount(role: string, prefix: string, words: string, rules: seq<string>, n: int)
    requires rules != []
    ensures var text := Lines([role, "", prefix + IntToString(n) + (" " + words)] + rules);
      var lead := role + "\n" + "\n" + prefix;
      StartsWith(text, lead) && ParseInt(text[|lead|..]) == Some(n)
  {
    var number, suffix := IntToString(n), " " + words;
    var after := suffix + "\n" + Lines(rules);
    var text := Lines([role, "", prefix + number + suffix] + rules);
    var lead := role + "\n" + "\n" + prefix;
    JoinThreeThen(role, "", prefix + number + suffix, rules, "\n");
    CountLine(role, prefix, number, suffix, Lines(rules));
    assert text == lead + (number + after);
    LeadThen(text, lead, number + after);
    assert after[0] == ' ';
    ParseIntOfIntToStringThen(n, after);
  }

  /** The joined lines regrouped around the number. */
  lemma CountLine(role: string, prefix: string, number: string, suffix: string, rules: string)
    ensures role + "\n" + "" + "\n" + (prefix + number + suffix) + "\n" + rules
      == (role + "\n" + "\n" + prefix) + (number + (suffix + "\n" + rules))
  {
    assert role + "\n" + "" == role + "\n";
  }

  /** A text made of a lead and more starts with the lead, and the rest follows it. */
  lemma LeadThen(text: string, lead: string, rest: string)
    requires text == lead + rest
    ensures StartsWith(text, lead) && text[|lead|..] == rest
  {
    assert text[..|lead|] == lead;
  }

  /** Joining three lines and then more lines. */
  lemma JoinThreeThen(a: string, b: string, c: string, rest: seq<string>, sep: string)
    requires rest != []
    ensures Join([a, b, c] + rest, sep) == a + sep + b + sep + c + sep + Join(rest, sep)
  {
    JoinAppend([a, b, c], rest, sep);
    assert [a, b, c][1..] == [b, c];
    assert [b, c][1..] == [c];
    assert Join([c], sep) == c;
    assert Join([b, c], sep) == b + sep + c;
    assert Join([a, b, c], sep) == a + sep + (b + sep + c);
  }

  const RoleLine: string := "You are an expert investor research assistant. Your job is to find relevant investors for startups."
  const IdentifyPrefix: string := "Given information about a startup, you will identify "
  const IdentifySuffix: string := " " + IdentifyWords
  const IdentifyWords: string := "potential investors who would be a good match."

  /** What to provide for each investor, what to focus on, and the reply's JSON shape. */
  const SystemRules: seq<string> := [
    "",
    "For each investor, provide:",
    "- Full name",
    "- Firm name",
    "- Their title/role",
    "- LinkedIn URL (if you can reasonably infer it exists)",
    "- Twitter URL (if you can reasonably infer it exists)",
    "- Detailed reasoning for why they're a good match",
    "- Match score (1-10)",
    "",
    "Focus on:",
    "- Investors who have invested in similar companies",
    "- Stage-appropriate investors (don't suggest Series A investors for pre-seed)",
    "- Geographic alignment if specified",
    "- Recent activity and current investment focus",
    "",
    "Output your response as a JSON array with this structure:",
    "[",
    "  {",
    "    \"name\": \"Jane Smith\",",
    "    \"firm\": \"Sequoia Capital\",",
    "    \"title\": \"Partner\",",
    "    \"linkedin_url\": \"https://linkedin.com/in/janesmith\",",
    "    \"twitter_url\": \"https://twitter.com/janesmith\",",
    "    \"reasoning\": \"Led investments in 3 similar fintech companies...\",",
    "    \"match_score\": 9",
    "  }",
    "]"
  ]

  /** The user prompt, line by line; lines 4 to 7 carry the optional criteria. */
  function UserPromptLines(input: FinderInput): (r: seq<string>)
    ensures |r| == 12
  {
    var head, criteria, tail := UserPromptHead(input), CriteriaLines(input), UserPromptTail(input.count);
    head + criteria + tail
  }

  /** The industry, stage, target geography and additional criteria lines. */
  function CriteriaLines(input: FinderInput): (r: seq<string>)
    ensures |r| == 4
  {
    [
      OptionalLine(IndustryTag, input.industry),
      OptionalLine(StageTag, input.stage),
      OptionalLine(GeographyTag, input.targetGeography),
      OptionalLine(CriteriaTag, input.additionalCriteria)
    ]
  }

  /**
   * Each criteria line of the user prompt is empty unless its input is truthy,
   * and then reads back exactly that input.
   */
  lemma CriteriaLinesReadBack(input: FinderInput)
    ensures var r := UserPromptLines(input);
      && (r[4] != "" <==> Given(input.industry))
      && (r[5] != "" <==> Given(input.stage))
      && (r[6] != "" <==> Given(input.targetGeography))
      && (r[7] != "" <==> Given(input.additionalCriteria))
    ensures var r := UserPromptLines(input);
      && ReadLine(r[4], IndustryTag) == Present(input.industry)
      && ReadLine(r[5], StageTag) == Present(input.stage)
      && ReadLine(r[6], GeographyTag) == Present(input.targetGeography)
      && ReadLine(r[7], CriteriaTag) == Present(input.additionalCriteria)
  {
    var c := CriteriaLines(input);
    assert UserPromptLines(input)[4..8] == c;
    ReadOptionalLine(IndustryTag, input.industry);
    ReadOptionalLine(StageTag, input.stage);
    ReadOptionalLine(GeographyTag, input.targetGeography);
    ReadOptionalLine(CriteriaTag, input.additionalCriteria);
  }

  function UserPromptHead(input: FinderInput): (r: seq<string>)
    ensures |r| == 4
  {
    [
      "Find " + IntToString(input.count) + " investors for this startup:",
      "",
      "**Company:** " + input.projectName,
      "**Description:** " + input.oneLiner
    ]
  }

  function UserPromptTail(count: int): (r: seq<string>)
    ensures |r| == 4
  {
    ["", "Please identify " + IntToString(count) + FocusSuffix, "", ReturnArrayLine]
  }

  const FocusSuffix: string :=
    " investors who would be most likely to invest in this company. Focus on recent activity (2023-2025) and investors who are actively investing."
  const ReturnArrayLine: string := "Return ONLY the JSON array, no additional text."

  function Request(input: FinderInput): MessageRequest
  {
    MessageRequest(Model, MaxTokens, SystemPrompt(input.count), Lines(UserPromptLines(input)))
  }

  /**
   * `findInvestors` after the API call: the parsed reply cut to `count` entries.
   * The parsed value is whatever `JSON.parse` produced; `slice` exists on arrays
   * and strings only, so any other value (including `null`) throws, and every
   * failure becomes the one message FindError.
   */
  function FindInvestors(input: FinderInput, outcome: ApiOutcome, parse: string -> Option<Json>): (r: Result<Json, string>)
    ensures r.Failure? ==> r.error == FindError
    ensures var p := ParsedReply(outcome, parse);
      r.Success? <==> p.Some? && (p.value.JArray? || p.value.JString?)
  {
    match ParsedReply(outcome, parse)
    case None => Failure(FindError)
    case Some(v) =>
      match v
      case JArray(items) => Success(JArray(Slice(items, input.count)))
      case JString(s) => Success(JString(Slice(s, input.count)))
      case _ => Failure(FindError)  // `slice` is not a function
  }

  /**
   * A parsed list of n matches comes back as its first min(count, n) entries, in
   * their original order and unchanged otherwise: nothing checks scores or URLs.
   * With count at least n the list is returned whole.
   */
  lemma FindReturnsFirstMatches(input: FinderInput, outcome: ApiOutcome, parse: string -> Option<Json>, items: seq<Json>)
    requires ParsedReply(outcome, parse) == Some(JArray(items))
    requires input.count >= 0
    ensures var r := FindInvestors(input, outcome, parse);
      && r.Success? && r.value.JArray?
      && |r.value.items| == (if input.count < |items| then input.count else |items|)
      && (forall i :: 0 <= i < |r.value.items| ==> r.value.items[i] == items[i])
      && (input.count >= |items| ==> r.value.items == items)
  {
  }
}
