/**
 * The first-generation email writer: a prompt assembled section by section
 * (header, then the optional research sections, then fixed closing
 * instructions), and a reply accepted only when its `subject` and `body` are
 * truthy.
 */
module EmailGenerator {
  import opened Wrappers
  import opened Text
  import opened Json
  import opened Prompt
  import opened LlmReply

  datatype GenerationInput = GenerationInput(
    investorName: string,
    firm: Option<string>,
    projectName: string,
    projectOneLiner: string,
    founderName: string,
    ask: string,
    researchSummary: Option<string>,
    thesisAlignment: Option<string>,
    personalizationAngles: Option<seq<string>>,
    talkingPoints: Option<seq<string>>)

  const GenerateError: string := "Failed to generate email with AI"
  const Model: string := "claude-sonnet-4-5-20250929"
  const MaxTokens: nat := 1024
  const FirmTag: string := " at "

  const SystemPrompt: string := Lines([
      "You are an expert cold email writer specializing in fundraising outreach for startup founders. Your job is to write personalized, compelling emails to investors that get responses.",
      "",
      "FUNDRAISING EMAIL PRINCIPLES:",
      "- Length: 50-125 words max",
      "- Personal hook must be ULTRA-SPECIFIC - reference exact article title, specific portfolio company, recent tweet, or conference talk",
      "- Include 2-3 CONCRETE metrics (revenue, growth rate, paying customers, MRR)",
      "- Be direct about fundraising - don't hide it, but don't make it the focus",
      "- Ask for specific actionable feedback with a concrete next step",
      "",
      "STRUCTURE (follow exactly):",
      "1. ULTRA-SPECIFIC personal hook (1-2 sentences)",
      "   - Bad: \"Your thesis on AI\"",
      "   - Good: \"Read your post on 'Why vertical AI will win' - especially the point about workflow integration\"",
      "",
      "2. Company + traction in ONE sentence",
      "   - Must include: what you do + ONE compelling metric",
      "   - Example: \"Building AI investor matching - 200 signups, 40% week-over-week growth in first month\"",
      "",
      "3. Why them + funding context (1-2 sentences)",
      "   - Connect their specific expertise/portfolio to your space",
      "   - Mention what you're raising",
      "   - Example: \"Raising $500K pre-seed; given your work with [specific company], would love your take on our matching accuracy vs. traditional methods\"",
      "",
      "4. Concrete ask with action (1 sentence)",
      "   - Bad: \"Would value your perspective\"",
      "   - Good: \"Do you have 15 minutes next week to share thoughts on our go-to-market?\"",
      "",
      "QUALITY CHECKS:",
      "- Personal hook: Can ONLY be used for THIS investor? (If it works for 10+ investors, it's too generic)",
      "- Traction: Are numbers specific and impressive? (No vague \"signups\" without context)",
      "- Ask: Is there a clear next step with timeframe?",
      "- Overall: Does it sound like you researched THEM specifically?",
      "",
      "AVOID:",
      "- Generic phrases: \"your thesis on X\", \"your work in Y\" (be MORE specific)",
      "- Vague metrics: \"200 signups\" (Are they paid? Free? Active?)",
      "- Weak asks: \"would value your perspective\" (On what? When? How?)",
      "- Templates: Every email should feel custom-written for that investor",
      "",
      "Output as JSON:",
      "{",
      "  \"subject\": \"Subject line (specific, under 50 chars, with credibility signal)\",",
      "  \"body\": \"Email body (50-125 words, passes ALL quality checks above)\",",
      "  \"tone\": \"Brief tone description\"",
      "}"
  ])

  /** `list && list.length > 0` */
  predicate NonEmpty(o: Option<seq<string>>)
  {
    o.Some? && |o.value| > 0
  }

  /** The opening of the prompt: its first line, then the founder, project and fundraising context. */
  function Header(input: GenerationInput): string
  {
    HeaderOpening(input) + "\n" + HeaderRest(input)
  }

  const HeaderLead: string := "Write a fundraising cold email to "

  /** The first line, with ` at <firm>` only when the firm is truthy. */
  function HeaderOpening(input: GenerationInput): string
  {
    HeaderLead + input.investorName + OptionalLine(FirmTag, input.firm) + "."
  }

  function HeaderRest(input: GenerationInput): string
  {
    "\n"
    + "**From:** " + input.founderName + "\n"
    + "\n"
    + "**What I'm building:** " + input.projectName + "\n"
    + input.projectOneLiner + "\n"
    + "\n"
    + "**Fundraising context:**\n"
    + input.ask + "\n"
  }

  /**
   * Reading the firm back from a header: the first line, between the lead with
   * the investor's name and the closing full stop.
   */
  function HeaderFirm(header: string, investorName: string): Option<string>
  {
    Between(Split(header, '\n')[0], HeaderLead + investorName, ".")
  }

  /**
   * The header names the firm only when it is truthy: the text between the
   * investor's name and the full stop is empty exactly when the firm is not
   * given, and otherwise reads back as the firm after ` at `.
   */
  lemma HeaderFirmReadBack(input: GenerationInput)
    requires '\n' !in input.investorName
    requires Given(input.firm) ==> '\n' !in input.firm.value
    ensures var part := HeaderFirm(Header(input), input.investorName);
      part.Some? && (part.value == "" <==> !Given(input.firm)) && ReadLine(part.value, FirmTag) == Present(input.firm)
  {
    var lead, firmPart := HeaderLead + input.investorName, OptionalLine(FirmTag, input.firm);
    var opening := HeaderOpening(input);
    assert '\n' !in HeaderLead;
    assert '\n' !in firmPart;
    assert opening == lead + firmPart + ".";
    SplitAtFirst(Header(input), opening, HeaderRest(input), '\n');
    OptionalBetween(lead, FirmTag, input.firm, ".");
  }

  /** `**About <investor>:**`, the heading of the research summary. */
  function AboutHeading(investorName: string): string
  {
    AboutOpen + investorName + ":**"
  }

  const AboutOpen: string := "**About "
  const ThesisTitle: string := "Why They're Relevant:"
  const AnglesTitle: string := "Personal Hooks (use ONE of these to open):"
  const PointsTitle: string := "Key Points to Potentially Include:"
  const ThesisHeading: string := "**" + ThesisTitle + "**"
  const AnglesHeading: string := "**" + AnglesTitle + "**"
  const PointsHeading: string := "**" + PointsTitle + "**"

  function SummarySection(investorName: string, summary: string): string
  {
    Section(AboutHeading(investorName), summary)
  }

  function ThesisSection(thesis: string): string
  {
    Section(ThesisHeading, thesis)
  }

  function AnglesSection(angles: seq<string>): string
  {
    Section(AnglesHeading, BulletBlock(angles))
  }

  function PointsSection(points: seq<string>): string
  {
    Section(PointsHeading, BulletBlock(points))
  }

  /** The fixed instructions that end every prompt; they name the investor twice. */
  function Closing(investorName: string): string
  {
    ClosingStart + investorName + ClosingMiddle + investorName + ClosingEnd
  }

  const ClosingStart: string := Lines([
      "",
      "Write a fundraising email that passes ALL quality checks from the system prompt.",
      "",
      "YOUR TASK:",
      "1. Find the MOST SPECIFIC detail about "
  ])

  const ClosingMiddle: string := Lines([
      " from the research (exact article title, specific portfolio company name, recent tweet topic, etc.) and use it as your hook",
      "2. Combine company intro + ONE impressive metric in a single sentence",
      "3. Connect their specific work to why you're reaching out + mention the fundraising round",
      "4. End with a concrete ask: specific topic + timeframe (e.g., \"15 minutes next week\")",
      "",
      "QUALITY CHECKLIST (your email MUST pass all):",
      "✓ Personal hook: Could this ONLY work for "
  ])

  const ClosingEnd: string := Lines([
      "? (Not \"your thesis on AI\" - be MORE specific)",
      "✓ Traction: Did you qualify the numbers? (Not just \"200 signups\" - paid? active? growing?)",
      "✓ Connection: Did you name a specific portfolio company or article or investment?",
      "✓ Ask: Is there a clear action with timeframe? (Not \"would value thoughts\" - when? on what exactly?)",
      "✓ Natural flow: Does it read like you personally wrote it for them?",
      "",
      "STRICT RULES:",
      "- NO generic phrases like \"your work in X\" or \"your thesis on Y\" - reference SPECIFIC content",
      "- NO vague metrics - always add context (growth rate, paid vs free, retention, etc.)",
      "- NO weak asks - always include timeframe and specific topic",
      "- NO apologizing or \"hope this finds you well\"",
      "- Every sentence must add value - cut fluff ruthlessly",
      "",
      "Target: 75-100 words (tight and punchy).",
      "",
      "Return ONLY the JSON object. No additional text."
  ])

  /** The optional sections that are added, in the order the source appends them. */
  function Sections(input: GenerationInput): seq<string>
  {
    SummaryPart(input) + ThesisPart(input) + AnglesPart(input) + PointsPart(input)
  }

  function SummaryPart(input: GenerationInput): seq<string>
  {
    if Given(input.researchSummary) then [SummarySection(input.investorName, input.researchSummary.value)] else []
  }

  function ThesisPart(input: GenerationInput): seq<string>
  {
    if Given(input.thesisAlignment) then [ThesisSection(input.thesisAlignment.value)] else []
  }

  function AnglesPart(input: GenerationInput): seq<string>
  {
    if NonEmpty(input.personalizationAngles) then [AnglesSection(input.personalizationAngles.value)] else []
  }

  function PointsPart(input: GenerationInput): seq<string>
  {
    if NonEmpty(input.talkingPoints) then [PointsSection(input.talkingPoints.value)] else []
  }

  function Concat(ss: seq<string>): string
    decreases |ss|
  {
    if ss == [] then "" else Concat(ss[..|ss| - 1]) + ss[|ss| - 1]
  }

  /** The whole user prompt: header, the sections that apply, closing instructions. */
  function UserPrompt(input: GenerationInput): string
  {
    Assemble(Header(input), Sections(input), Closing(input.investorName))
  }

  function Assemble(head: string, sections: seq<string>, closing: string): string
  {
    head + Concat(sections) + closing
  }

  /** The text an optional part adds: its section, or nothing. */
  function PartText(part: seq<string>): string
  {
    if part == [] then "" else part[0]
  }

  /** Appending an optional part (no section, or one) to the sections so far appends its text. */
  lemma ConcatAppendPart(added: seq<string>, part: seq<string>)
    requires |part| <= 1
    ensures Concat(added + part) == Concat(added) + PartText(part)
  {
    if part == [] {
      assert added + part == added;
    } else {
      assert (added + part)[..|added|] == added;
    }
  }

  /** The prompt is the header, the text of each optional part in turn, and the closing. */
  lemma UserPromptByParts(input: GenerationInput)
    ensures UserPrompt(input) == Header(input) + PartText(SummaryPart(input)) + PartText(ThesisPart(input))
      + PartText(AnglesPart(input)) + PartText(PointsPart(input)) + Closing(input.investorName)
  {
    var s1, s2, s3, s4 := SummaryPart(input), ThesisPart(input), AnglesPart(input), PointsPart(input);
    assert Concat([] + s1) == PartText(s1) by { ConcatAppendPart([], s1); }
    assert [] + s1 == s1;
    ConcatAppendPart(s1, s2);
    ConcatAppendPart(s1 + s2, s3);
    ConcatAppendPart(s1 + s2 + s3, s4);
    Regroup(Header(input), PartText(s1), PartText(s2), PartText(s3), PartText(s4));
  }

  lemma Regroup(h: string, a: string, b: string, c: string, d: string)
    ensures h + (a + b + c + d) == h + a + b + c + d
  {
  }

  /** The source's `let userPrompt = ...; if (...) userPrompt += ...` assembly. */
  method BuildUserPrompt(input: GenerationInput) returns (prompt: string)
    ensures prompt == UserPrompt(input)
  {
    var head := Header(input);
    prompt := head;
    ghost var before := prompt;
    if Given(input.researchSummary) {
      prompt := prompt + SummarySection(input.investorName, input.researchSummary.value);
    }
    AppendsPart(before, prompt, SummaryPart(input), Given(input.researchSummary),
      if Given(input.researchSummary) then SummarySection(input.investorName, input.researchSummary.value) else "");
    before := prompt;
    if Given(input.thesisAlignment) {
      prompt := prompt + ThesisSection(input.thesisAlignment.value);
    }
    AppendsPart(before, prompt, ThesisPart(input), Given(input.thesisAlignment),
      if Given(input.thesisAlignment) then ThesisSection(input.thesisAlignment.value) else "");
    before := prompt;
    if NonEmpty(input.personalizationAngles) {
      prompt := prompt + AnglesSection(input.personalizationAngles.value);
    }
    AppendsPart(before, prompt, AnglesPart(input), NonEmpty(input.personalizationAngles),
      if NonEmpty(input.personalizationAngles) then AnglesSection(input.personalizationAngles.value) else "");
    before := prompt;
    if NonEmpty(input.talkingPoints) {
      prompt := prompt + PointsSection(input.talkingPoints.value);
    }
    AppendsPart(before, prompt, PointsPart(input), NonEmpty(input.talkingPoints),
      if NonEmpty(input.talkingPoints) then PointsSection(input.talkingPoints.value) else "");
    prompt := prompt + Closing(input.investorName);
    UserPromptByParts(input);
  }

  /** One `if (...) userPrompt += section` step appends the text of that optional part. */
  lemma AppendsPart(before: string, after: string, part: seq<string>, cond: bool, section: string)
    requires part == if cond then [section] else []
    requires after == if cond then before + section else before
    ensures after == before + PartText(part)
  {
    if !cond {
      assert before + "" == before;
    }
  }

  function Request(input: GenerationInput): MessageRequest
  {
    MessageRequest(Model, MaxTokens, SystemPrompt, UserPrompt(input))
  }

  /** The (heading, text) pairs of the sections that are added, in the order the source appends them. */
  function SectionBlocks(input: GenerationInput): seq<(string, string)>
  {
    SummaryBlock(input) + ThesisBlock(input) + AnglesBlock(input) + PointsBlock(input)
  }

  function SummaryBlock(input: GenerationInput): seq<(string, string)>
  {
    if Given(input.researchSummary) then [(AboutHeading(input.investorName), input.researchSummary.value)] else []
  }

  function ThesisBlock(input: GenerationInput): seq<(string, string)>
  {
    if Given(input.thesisAlignment) then [(ThesisHeading, input.thesisAlignment.value)] else []
  }

  function AnglesBlock(input: GenerationInput): seq<(string, string)>
  {
    if NonEmpty(input.personalizationAngles) then [(AnglesHeading, BulletBlock(input.personalizationAngles.value))] else []
  }

  function PointsBlock(input: GenerationInput): seq<(string, string)>
  {
    if NonEmpty(input.talkingPoints) then [(PointsHeading, BulletBlock(input.talkingPoints.value))] else []
  }

  predicate IsAboutLine(line: string)
  {
    StartsWith(line, AboutOpen)
  }

  predicate IsThesisLine(line: string)
  {
    line == ThesisHeading
  }

  predicate IsAnglesLine(line: string)
  {
    line == AnglesHeading
  }

  predicate IsPointsLine(line: string)
  {
    line == PointsHeading
  }

  /** A line that opens one of the four sections. */
  predicate IsHeading(line: string)
  {
    IsAboutLine(line) || IsThesisLine(line) || IsAnglesLine(line) || IsPointsLine(line)
  }

  /** What a reader of the sections finds: each section's content, or None where the section is absent. */
  datatype SectionsRead = SectionsRead(
    summary: Option<string>,
    thesis: Option<string>,
    angles: Option<seq<string>>,
    points: Option<seq<string>>)

  /** The lines of the first section when `heading` accepts its heading line, and the sections after it. */
  function TakeSection(sections: seq<(string, seq<string>)>, heading: string -> bool): (Option<seq<string>>, seq<(string, seq<string>)>)
  {
    if sections != [] && heading(sections[0].0) then (Some(sections[0].1), sections[1..]) else (None, sections)
  }

  /** A bulleted section's items, read back from its lines. */
  function Bullets(lines: Option<seq<string>>): Option<seq<string>>
  {
    if lines.None? then None else Unbullet(lines.value)
  }

  /**
   * Reading the text between the header and the closing instructions: cut into
   * its sections at the heading lines, which must come in the order About, Why
   * They're Relevant, Personal Hooks, Key Points, each at most once; a text that
   * has any other shape reads as None.
   */
  function ReadSections(text: string): Option<SectionsRead>
  {
    match ReadSectionLines(Split(text, '\n'), IsHeading)
    case None => None
    case Some(sections) => Classify(sections)
  }

  /** The sections in their fixed order, each optional; anything else reads as None. */
  function Classify(sections: seq<(string, seq<string>)>): Option<SectionsRead>
  {
    var summary := TakeSection(sections, IsAboutLine);
    var thesis := TakeSection(summary.1, IsThesisLine);
    var angles := TakeSection(thesis.1, IsAnglesLine);
    var points := TakeSection(angles.1, IsPointsLine);
    if points.1 != [] || (angles.0.Some? && Bullets(angles.0).None?) || (points.0.Some? && Bullets(points.0).None?) then None
    else Some(SectionsRead(
      if summary.0.Some? then Some(Lines(summary.0.value)) else None,
      if thesis.0.Some? then Some(Lines(thesis.0.value)) else None,
      Bullets(angles.0),
      Bullets(points.0)))
  }

  /**
   * The research summary and the thesis come back exactly when they are truthy,
   * and the personal hooks and the talking points exactly when they are
   * non-empty, read from the prompt between its header and its closing
   * instructions; so each section appears at most once and in the fixed order.
   * It holds when the investor's name is one line, no line of the summary or
   * the thesis is a heading line, and every hook and talking point is one line.
   */
  lemma SectionsReadBack(input: GenerationInput)
    requires '\n' !in input.investorName
    requires Given(input.researchSummary) ==> NoLineIs(input.researchSummary.value, IsHeading)
    requires Given(input.thesisAlignment) ==> NoLineIs(input.thesisAlignment.value, IsHeading)
    requires NonEmpty(input.personalizationAngles) ==> forall a <- input.personalizationAngles.value :: '\n' !in a
    requires NonEmpty(input.talkingPoints) ==> forall p <- input.talkingPoints.value :: '\n' !in p
    ensures ReadSections(PromptSections(input)) == Some(SectionsRead(
        Present(input.researchSummary),
        Present(input.thesisAlignment),
        if NonEmpty(input.personalizationAngles) then input.personalizationAngles else None,
        if NonEmpty(input.talkingPoints) then input.talkingPoints else None))
  {
    MiddleIsSections(input);
    ReadBlocksOf(input);
    ReadThenClassify(PromptSections(input), SectionsSplit(SectionBlocks(input)));
    ClassifyOf(input);
  }

  lemma ReadThenClassify(text: string, sections: seq<(string, seq<string>)>)
    requires ReadSectionLines(Split(text, '\n'), IsHeading) == Some(sections)
    ensures ReadSections(text) == Classify(sections)
  {
  }

  /** The user prompt between its header and its closing instructions. */
  function PromptSections(input: GenerationInput): string
  {
    var prompt := UserPrompt(input);
    prompt[|Header(input)|..|prompt| - |Closing(input.investorName)|]
  }

  /** Between the header and the closing instructions stand the section blocks. */
  lemma MiddleIsSections(input: GenerationInput)
    ensures PromptSections(input) == SectionsText(SectionBlocks(input))
  {
    SectionsByParts(input);
    Middle(Header(input), Concat(Sections(input)), Closing(input.investorName));
    PartsAreBlocks(input);
  }

  /** The section blocks read back as blocks of lines. */
  lemma ReadBlocksOf(input: GenerationInput)
    requires '\n' !in input.investorName
    requires Given(input.researchSummary) ==> NoLineIs(input.researchSummary.value, IsHeading)
    requires Given(input.thesisAlignment) ==> NoLineIs(input.thesisAlignment.value, IsHeading)
    requires NonEmpty(input.personalizationAngles) ==> forall a <- input.personalizationAngles.value :: '\n' !in a
    requires NonEmpty(input.talkingPoints) ==> forall p <- input.talkingPoints.value :: '\n' !in p
    ensures ReadSectionLines(Split(SectionsText(SectionBlocks(input)), '\n'), IsHeading) == Some(SectionsSplit(SectionBlocks(input)))
  {
    HeadingFacts();
    AboutHeadingLine(input.investorName);
    if NonEmpty(input.personalizationAngles) {
      BulletsReadBack(input.personalizationAngles.value);
    }
    if NonEmpty(input.talkingPoints) {
      BulletsReadBack(input.talkingPoints.value);
    }
    ReadSectionsText(SectionBlocks(input), IsHeading);
  }

  /** The blocks of lines classify into the inputs, each present exactly when it is truthy. */
  lemma ClassifyOf(input: GenerationInput)
    requires NonEmpty(input.personalizationAngles) ==> forall a <- input.personalizationAngles.value :: '\n' !in a
    requires NonEmpty(input.talkingPoints) ==> forall p <- input.talkingPoints.value :: '\n' !in p
    ensures Classify(SectionsSplit(SectionBlocks(input))) == Some(SectionsRead(
        Present(input.researchSummary),
        Present(input.thesisAlignment),
        if NonEmpty(input.personalizationAngles) then input.personalizationAngles else None,
        if NonEmpty(input.talkingPoints) then input.talkingPoints else None))
  {
    var b1, b2, b3, b4 := SummaryBlock(input), ThesisBlock(input), AnglesBlock(input), PointsBlock(input);
    SplitFour(b1, b2, b3, b4);
    if Given(input.researchSummary) {
      JoinSplit(input.researchSummary.value, '\n');
    }
    if Given(input.thesisAlignment) {
      JoinSplit(input.thesisAlignment.value, '\n');
    }
    if NonEmpty(input.personalizationAngles) {
      BulletsReadBack(input.personalizationAngles.value);
    }
    if NonEmpty(input.talkingPoints) {
      BulletsReadBack(input.talkingPoints.value);
    }
    ClassifyParts(SectionsSplit(b1), SectionsSplit(b2), SectionsSplit(b3), SectionsSplit(b4));
  }

  /** Four optional sections, each under its own heading, classify into their contents. */
  lemma ClassifyParts(s1: seq<(string, seq<string>)>, s2: seq<(string, seq<string>)>,
                      s3: seq<(string, seq<string>)>, s4: seq<(string, seq<string>)>)
    requires |s1| <= 1 && forall s <- s1 :: IsAboutLine(s.0)
    requires |s2| <= 1 && forall s <- s2 :: s.0 == ThesisHeading
    requires |s3| <= 1 && forall s <- s3 :: s.0 == AnglesHeading && Unbullet(s.1).Some?
    requires |s4| <= 1 && forall s <- s4 :: s.0 == PointsHeading && Unbullet(s.1).Some?
    ensures Classify(s1 + (s2 + (s3 + s4))) == Some(SectionsRead(
      if s1 == [] then None else Some(Lines(s1[0].1)),
      if s2 == [] then None else Some(Lines(s2[0].1)),
      if s3 == [] then None else Unbullet(s3[0].1),
      if s4 == [] then None else Unbullet(s4[0].1)))
  {
    TakesOf(s1, s2, s3, s4);
  }

  /** The four takes of Classify, one optional section each. */
  lemma TakesOf(s1: seq<(string, seq<string>)>, s2: seq<(string, seq<string>)>,
                s3: seq<(string, seq<string>)>, s4: seq<(string, seq<string>)>)
    requires |s1| <= 1 && forall s <- s1 :: IsAboutLine(s.0)
    requires |s2| <= 1 && forall s <- s2 :: s.0 == ThesisHeading
    requires |s3| <= 1 && forall s <- s3 :: s.0 == AnglesHeading
    requires |s4| <= 1 && forall s <- s4 :: s.0 == PointsHeading
    ensures TakeSection(s1 + (s2 + (s3 + s4)), IsAboutLine) == (if s1 == [] then None else Some(s1[0].1), s2 + (s3 + s4))
    ensures TakeSection(s2 + (s3 + s4), IsThesisLine) == (if s2 == [] then None else Some(s2[0].1), s3 + s4)
    ensures TakeSection(s3 + s4, IsAnglesLine) == (if s3 == [] then None else Some(s3[0].1), s4)
    ensures TakeSection(s4, IsPointsLine) == (if s4 == [] then None else Some(s4[0].1), [])
  {
    HeadingFacts();
    TakeSectionOf(s1, s2 + (s3 + s4), IsAboutLine);
    TakeSectionOf(s2, s3 + s4, IsThesisLine);
    TakeSectionOf(s3, s4, IsAnglesLine);
    TakeSectionOf(s4, [], IsPointsLine);
    assert s4 + [] == s4;
  }

  /** The text between a head and a tail is what was put there. */
  lemma Middle(head: string, middle: string, tail: string)
    ensures var whole := head + middle + tail; whole[|head|..|whole| - |tail|] == middle
  {
  }

  /** The sections text is the text of each optional part in turn. */
  lemma SectionsByParts(input: GenerationInput)
    ensures Concat(Sections(input)) == PartText(SummaryPart(input)) + PartText(ThesisPart(input))
      + PartText(AnglesPart(input)) + PartText(PointsPart(input))
  {
    var s1, s2, s3, s4 := SummaryPart(input), ThesisPart(input), AnglesPart(input), PointsPart(input);
    assert Concat([] + s1) == PartText(s1) by { ConcatAppendPart([], s1); }
    assert [] + s1 == s1;
    ConcatAppendPart(s1, s2);
    ConcatAppendPart(s1 + s2, s3);
    ConcatAppendPart(s1 + s2 + s3, s4);
  }

  /** The text of the optional parts is the text of the section blocks. */
  lemma PartsAreBlocks(input: GenerationInput)
    ensures PartText(SummaryPart(input)) + PartText(ThesisPart(input)) + PartText(AnglesPart(input))
      + PartText(PointsPart(input)) == SectionsText(SectionBlocks(input))
  {
    var b1, b2, b3, b4 := SummaryBlock(input), ThesisBlock(input), AnglesBlock(input), PointsBlock(input);
    PartIsBlock(SummaryPart(input), b1);
    PartIsBlock(ThesisPart(input), b2);
    PartIsBlock(AnglesPart(input), b3);
    PartIsBlock(PointsPart(input), b4);
    SectionsTextAppend(b1 + b2 + b3, b4);
    SectionsTextAppend(b1 + b2, b3);
    SectionsTextAppend(b1, b2);
  }

  lemma PartIsBlock(part: seq<string>, block: seq<(string, string)>)
    requires |block| <= 1
    requires part == if block == [] then [] else [Section(block[0].0, block[0].1)]
    ensures PartText(part) == SectionsText(block)
  {
    if block != [] {
      assert SectionsText(block) == Section(block[0].0, block[0].1) + SectionsText([]);
    }
  }

  lemma SplitFour(b1: seq<(string, string)>, b2: seq<(string, string)>, b3: seq<(string, string)>, b4: seq<(string, string)>)
    ensures SectionsSplit(b1 + b2 + b3 + b4) == SectionsSplit(b1) + (SectionsSplit(b2) + (SectionsSplit(b3) + SectionsSplit(b4)))
  {
  }

  /** Taking one optional section off the front, when no later section has its heading. */
  lemma TakeSectionOf(part: seq<(string, seq<string>)>, rest: seq<(string, seq<string>)>, heading: string -> bool)
    requires |part| <= 1 && (forall s <- part :: heading(s.0)) && (forall s <- rest :: !heading(s.0))
    ensures TakeSection(part + rest, heading) == (if part == [] then None else Some(part[0].1), rest)
  {
    if part == [] {
      assert part + rest == rest;
    } else {
      assert (part + rest)[0] == part[0];
      assert (part + rest)[1..] == rest;
    }
  }

  /** The fixed heading lines: one line each, told apart from one another, and none of them blank. */
  lemma HeadingFacts()
    ensures !IsHeading("")
    ensures '\n' !in ThesisHeading && '\n' !in AnglesHeading && '\n' !in PointsHeading
    ensures !IsAboutLine(ThesisHeading) && !IsAboutLine(AnglesHeading) && !IsAboutLine(PointsHeading)
    ensures !IsThesisLine(AnglesHeading) && !IsThesisLine(PointsHeading) && !IsAnglesLine(PointsHeading)
  {
    ThesisTitleFacts();
    AnglesTitleFacts();
    PointsTitleFacts();
    HeadingOf(ThesisTitle);
    HeadingOf(AnglesTitle);
    HeadingOf(PointsTitle);
  }

  lemma ThesisTitleFacts()
    ensures '\n' !in ThesisTitle && ThesisTitle[0] == 'W' && |ThesisTitle| == 21
  {
  }

  lemma AnglesTitleFacts()
    ensures '\n' !in AnglesTitle && AnglesTitle[0] == 'P' && |AnglesTitle| == 42
  {
  }

  lemma PointsTitleFacts()
    ensures '\n' !in PointsTitle && PointsTitle[0] == 'K' && |PointsTitle| == 34
  {
  }

  /** A heading `**<title>**` is one line when its title is, and its third character is the title's first. */
  lemma HeadingOf(title: string)
    requires title != [] && '\n' !in title
    ensures var h := "**" + title + "**"; '\n' !in h && h[2] == title[0] && |h| == |title| + 4 && !StartsWith("", h)
    ensures var h := "**" + title + "**"; title[0] != 'A' ==> !IsAboutLine(h)
  {
  }

  lemma AboutHeadingLine(investorName: string)
    requires '\n' !in investorName
    ensures '\n' !in AboutHeading(investorName) && IsAboutLine(AboutHeading(investorName))
  {
  }

  /** The lines of a bullet block of one-line items are no heading lines, and read back to the items. */
  lemma BulletsReadBack(items: seq<string>)
    requires items != [] && forall item <- items :: '\n' !in item
    ensures NoLineIs(BulletBlock(items), IsHeading)
    ensures Bullets(Some(Split(BulletBlock(items), '\n'))) == Some(items)
  {
    BulletBlockReadBack(items);
    forall line <- BulletLines(items) ensures !IsHeading(line) {
      assert line[0] == '-';
    }
  }

  /** Whether the parsed reply passes the check `!result.subject || !result.body`. */
  predicate Acceptable(v: Json)
  {
    TruthyMember(v, "subject") && TruthyMember(v, "body")
  }

  /**
   * `generateEmail` after the API call: the parsed object, accepted only when
   * its subject and body are truthy; any failure, `null` included, becomes
   * GenerateError.
   */
  function GenerateEmail(outcome: ApiOutcome, parse: string -> Option<Json>): (r: Result<Json, string>)
    ensures r.Failure? ==> r.error == GenerateError
    ensures r.Success? <==> ParsedReply(outcome, parse).Some? && Acceptable(ParsedReply(outcome, parse).value)
    ensures r.Success? ==> r.value == ParsedReply(outcome, parse).value && r.value.JObject?
  {
    match ParsedReply(outcome, parse)
    case None => Failure(GenerateError)
    case Some(v) =>
      if v.JNull? then Failure(GenerateError)  // reading `subject` of null throws
      else if Acceptable(v) then Success(v)
      else Failure(GenerateError)
  }

  /** The `tone` member, and any other member, plays no part in the verdict. */
  lemma VerdictIgnoresOtherMembers(members: seq<(string, Json)>, extra: seq<(string, Json)>)
    requires forall i :: 0 <= i < |extra| ==> extra[i].0 != "subject" && extra[i].0 != "body"
    ensures Acceptable(JObject(members + extra)) == Acceptable(JObject(members))
  {
    LookupSkipsOtherKeys(members, extra, "subject");
    LookupSkipsOtherKeys(members, extra, "body");
  }
}
