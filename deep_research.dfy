/**
 * Deep investor research: five fixed progress steps are logged (and passed to
 * the progress listener, when there is one) before the model is asked; a sixth,
 * "Research Complete", is logged only when the reply parses.
 */
module DeepResearch {
  import opened Wrappers
  import opened Text
  import opened Json
  import opened Prompt
  import opened LlmReply
  import opened Domain

  /** The startup reaching out, as the research and email agents receive it. */
  datatype ProjectContext = ProjectContext(name: string, oneLiner: string, industry: Option<string>, stage: Option<string>)

  datatype RecentInvestment = RecentInvestment(company: string, date: string, stage: string, description: string, relevance: Option<string>)

  datatype RecentActivity = RecentActivity(kind: ActivityKind, content: string, date: string, sourceUrl: string, relevance: Option<string>)

  datatype TalkingPoint = TalkingPoint(hook: string, reasoning: string, source: string)

  /** The research report; list fields that the report may lack are optional. */
  datatype InvestorResearch = InvestorResearch(
    investorName: string,
    firm: string,
    background: string,
    recentInvestments: Option<seq<RecentInvestment>>,
    investmentThesis: string,
    recentActivity: Option<seq<RecentActivity>>,
    talkingPoints: Option<seq<TalkingPoint>>,
    whyGoodFit: string,
    matchScore: int)

  datatype ResearchInput = ResearchInput(investorName: string, firm: Option<string>, project: ProjectContext)

  /** One progress entry; the timestamp is the clock reading when it was logged. */
  datatype ResearchStep = ResearchStep(step: nat, title: string, content: string, timestamp: int)

  const ResearchError: string := "Failed to complete investor research"
  const Model: string := "claude-3-5-sonnet-20241022"
  const MaxTokens: nat := 4096
  const CompleteTitle: string := "Research Complete"

  /** The titles and texts of the opening progress steps. */
  const BackgroundTitle: string := "Background Research"
  const InvestmentsTitle: string := "Recent Investments"
  const InvestmentsText: string := "Analyzing investment portfolio and recent deals..."
  const ThesisTitle: string := "Investment Thesis"
  const ThesisText: string := "Understanding focus areas and investment criteria..."
  const ActivityTitle: string := "Recent Activity"
  const ActivityText: string := "Checking Twitter, podcasts, and articles..."
  const InsightsTitle: string := "Generating Insights"
  const InsightsText: string := "Creating personalized talking points..."

  const SystemPrompt: string :=
    "You are an expert investor research analyst. Your job is to perform deep research on venture capital investors to help founders craft personalized outreach.\n"
    + "\n"
    + "You will conduct multi-step research on an investor and provide actionable insights for personalized cold emails.\n"
    + "\n"
    + "Your research should cover:\n"
    + "1. Background and bio\n"
    + "2. Recent investments (2023-2025)\n"
    + "3. Investment thesis and focus areas\n"
    + "4. Recent social media activity (especially Twitter)\n"
    + "5. Podcast appearances or interviews\n"
    + "6. Articles they've written or been featured in\n"
    + "7. Specific opinions on the founder's industry\n"
    + "\n"
    + "For each research area, provide specific, actionable information that could be referenced in a cold email.\n"
    + "\n"
    + "Output your final research as JSON with this structure:\n"
    + "{\n"
    + "  \"investor_name\": \"Jane Smith\",\n"
    + "  \"firm\": \"Sequoia Capital\",\n"
    + "  \"background\": \"Former founder of... Partner at Sequoia since...\",\n"
    + "  \"recent_investments\": [\n"
    + "    {\n"
    + "      \"company\": \"Stripe\",\n"
    + "      \"date\": \"2024-03-15\",\n"
    + "      \"stage\": \"Series C\",\n"
    + "      \"description\": \"Led $450M Series C round\",\n"
    + "      \"relevance\": \"Similar fintech space\"\n"
    + "    }\n"
    + "  ],\n"
    + "  \"investment_thesis\": \"Focuses on...\",\n"
    + "  \"recent_activity\": [\n"
    + "    {\n"
    + "      \"type\": \"tweet\",\n"
    + "      \"content\": \"Summary of tweet about AI...\",\n"
    + "      \"date\": \"2024-12-15\",\n"
    + "      \"source_url\": \"https://twitter.com/...\",\n"
    + "      \"relevance\": \"Relevant to this startup\"\n"
    + "    }\n"
    + "  ],\n"
    + "  \"talking_points\": [\n"
    + "    {\n"
    + "      \"hook\": \"Recently tweeted about AI in fintech\",\n"
    + "      \"reasoning\": \"Shows active interest in the space\",\n"
    + "      \"source\": \"Twitter, Dec 15 2024\"\n"
    + "    }\n"
    + "  ],\n"
    + "  \"why_good_fit\": \"Aligns with founder's company because...\",\n"
    + "  \"match_score\": 9\n"
    + "}"

  /** Steps numbered 1, 2, 3, ... in the order they were logged. */
  predicate Numbered(steps: seq<ResearchStep>)
  {
    forall i :: 0 <= i < |steps| ==> steps[i].step == i + 1
  }

  /**
   * The progress log: `steps`, the `stepNumber` counter and, when a listener
   * was given, everything handed to it so far.
   */
  class ResearchLog {
    var steps: seq<ResearchStep>
    var stepNumber: int
    const listening: bool
    var delivered: seq<ResearchStep>

    /** The counter is the number of steps, the steps are numbered in order, and the listener saw each of them. */
    predicate Valid()
      reads this
    {
      stepNumber == |steps| && Numbered(steps) && delivered == (if listening then steps else [])
    }

    constructor (listening: bool)
      ensures Valid() && steps == [] && this.listening == listening
    {
      steps := [];
      stepNumber := 0;
      this.listening := listening;
      delivered := [];
    }

    /** `addStep`: bump the counter, record the step, and pass it to the listener. */
    method AddStep(title: string, content: string, timestamp: int)
      requires Valid()
      modifies this
      ensures Valid()
      ensures steps == old(steps) + [ResearchStep(|old(steps)| + 1, title, content, timestamp)]
    {
      stepNumber := stepNumber + 1;
      var step := ResearchStep(stepNumber, title, content, timestamp);
      steps := steps + [step];
      if listening {
        delivered := delivered + [step];
      }
    }
  }

  /** The first step's text: who is being researched, and at which firm when one was given. */
  function BackgroundText(input: ResearchInput): string
  {
    BackgroundLead + input.investorName + OptionalLine(FirmTag, input.firm) + "..."
  }

  const BackgroundLead: string := "Researching "
  const FirmTag: string := " at "

  /**
   * The first step names the firm only when it is truthy: the text between
   * the investor's name and the closing `...` is empty exactly when the firm is
   * not given, and otherwise reads back as the firm after ` at `.
   */
  lemma BackgroundFirmReadBack(input: ResearchInput)
    ensures var part := Between(BackgroundText(input), BackgroundLead + input.investorName, "...");
      part.Some? && (part.value == "" <==> !Given(input.firm)) && ReadLine(part.value, FirmTag) == Present(input.firm)
  {
    OptionalBetween(BackgroundLead + input.investorName, FirmTag, input.firm, "...");
  }

  /** The five steps logged before the model is asked; `clock(i)` is the time of the i-th step. */
  function OpeningSteps(input: ResearchInput, clock: nat -> int): (r: seq<ResearchStep>)
    ensures |r| == 5 && Numbered(r)
  {
    [
      ResearchStep(1, BackgroundTitle, BackgroundText(input), clock(0)),
      ResearchStep(2, InvestmentsTitle, InvestmentsText, clock(1)),
      ResearchStep(3, ThesisTitle, ThesisText, clock(2)),
      ResearchStep(4, ActivityTitle, ActivityText, clock(3)),
      ResearchStep(5, InsightsTitle, InsightsText, clock(4))
    ]
  }

  /**
   * `research.talking_points?.length || 0`: the length of an array or string,
   * and 0 for anything else.
   */
  function PointCount(research: Json): nat
  {
    match Member(research, "talking_points")
    case Some(JArray(items)) => |items|
    case Some(JString(s)) => |s|
    case _ => 0
  }

  /** The completion step's text. */
  function CompleteMessage(research: Json): string
  {
    "Found " + IntToString(PointCount(research)) + " talking points"
  }

  /** The number shown in the completion step reads back as the number of talking points. */
  lemma CompleteMessageReadsBack(research: Json)
    ensures var m := CompleteMessage(research);
      |m| > 6 && ParseInt(m[6..]) == Some(PointCount(research))
  {
    var m := CompleteMessage(research);
    var n := IntToString(PointCount(research));
    assert m[6..] == n + " talking points";
    ParseIntOfIntToStringThen(PointCount(research), " talking points");
  }

  /** The user prompt, line by line: the firm on line 3, industry and stage on lines 8 and 9. */
  function UserPromptLines(input: ResearchInput): (r: seq<string>)
    ensures |r| == 22
  {
    [
      PromptOpening,
      "",
      "**Investor:** " + input.investorName,
      OptionalLine("**Firm:** ", input.firm),
      "",
      ContextHeading,
      "- Company: " + input.project.name,
      "- Description: " + input.project.oneLiner
    ]
    + ProjectLines(input.project)
    + PromptTail(input.project.name)
  }

  const PromptOpening: string := "Perform deep research on this investor for a personalized cold email:"
  const ContextHeading: string := "**Context - The startup reaching out:**"

  /** The industry and stage lines shared with the email writer's prompt. */
  function ProjectLines(project: ProjectContext): (r: seq<string>)
    ensures |r| == 2
  {
    [OptionalLine("- Industry: ", project.industry), OptionalLine("- Stage: ", project.stage)]
  }

  /** The research instructions; only the sixth item names the startup. */
  function PromptTail(name: string): (r: seq<string>)
    ensures |r| == 12
  {
    Instructions + ["6. Why they're a good fit for " + name] + ClosingInstructions
  }

  const Instructions: seq<string> := [
    "",
    "Research this investor thoroughly and provide:",
    "1. Their background and current role",
    "2. Recent investments (especially 2023-2025)",
    "3. Their investment thesis and what they look for",
    "4. Recent tweets, podcasts, or articles (if any)",
    "5. Specific talking points that would make a cold email personalized"
  ]

  const ClosingInstructions: seq<string> := [
    "",
    "Focus on finding specific, recent, and actionable information that can be referenced in a cold email.",
    "",
    "Return ONLY the JSON object, no additional text."
  ]

  /** The firm, industry and stage lines are empty unless given, and then read back what was given. */
  lemma UserPromptReadBack(input: ResearchInput)
    ensures var r := UserPromptLines(input);
      && (r[3] != "" <==> Given(input.firm))
      && (r[8] != "" <==> Given(input.project.industry))
      && (r[9] != "" <==> Given(input.project.stage))
    ensures var r := UserPromptLines(input);
      && ReadLine(r[3], "**Firm:** ") == Present(input.firm)
      && ReadLine(r[8], "- Industry: ") == Present(input.project.industry)
      && ReadLine(r[9], "- Stage: ") == Present(input.project.stage)
  {
    var r := UserPromptLines(input);
    assert r[8..10] == ProjectLines(input.project);
    ReadOptionalLine("**Firm:** ", input.firm);
    ReadOptionalLine("- Industry: ", input.project.industry);
    ReadOptionalLine("- Stage: ", input.project.stage);
  }

  function Request(input: ResearchInput): MessageRequest
  {
    MessageRequest(Model, MaxTokens, SystemPrompt, Lines(UserPromptLines(input)))
  }

  /**
   * `performDeepResearch` with the API call's outcome, the parser, whether a
   * progress listener was given and the clock as parameters. It returns the
   * result, the steps logged and the steps the listener received. The five
   * opening steps are always logged; the completion step only on success; a
   * reply that parses to `null` fails when its `talking_points` is read.
   */
  method PerformDeepResearch(input: ResearchInput, listening: bool, clock: nat -> int, outcome: ApiOutcome, parse: string -> Option<Json>)
    returns (result: Result<Json, string>, steps: seq<ResearchStep>, delivered: seq<ResearchStep>)
    ensures result.Failure? ==> result.error == ResearchError
    ensures var p := ParsedReply(outcome, parse);
      result.Success? <==> p.Some? && !p.value.JNull?
    ensures result.Success? ==> result.value == ParsedReply(outcome, parse).value
    ensures Numbered(steps)
    ensures |steps| == if result.Success? then 6 else 5
    ensures steps[..5] == OpeningSteps(input, clock)
    ensures result.Success? ==> steps[5] == ResearchStep(6, CompleteTitle, CompleteMessage(result.value), clock(5))
    ensures delivered == if listening then steps else []
  {
    var log := new ResearchLog(listening);
    log.AddStep(BackgroundTitle, BackgroundText(input), clock(0));
    log.AddStep(InvestmentsTitle, InvestmentsText, clock(1));
    log.AddStep(ThesisTitle, ThesisText, clock(2));
    log.AddStep(ActivityTitle, ActivityText, clock(3));
    log.AddStep(InsightsTitle, InsightsText, clock(4));
    ghost var opening := log.steps;
    assert opening == OpeningSteps(input, clock);
    var parsed := ParsedReply(outcome, parse);
    if parsed.None? || parsed.value.JNull? {
      result := Failure(ResearchError);
    } else {
      log.AddStep(CompleteTitle, CompleteMessage(parsed.value), clock(5));
      result := Success(parsed.value);
      assert log.steps[..5] == opening;
    }
    steps, delivered := log.steps, log.delivered;
  }
}
