/**
 * The research-based email writer: a prompt built from the project and the
 * research report, with at most three recent investments and three recent
 * activities, a fallback text for each empty list, and every talking point;
 * and the revision prompt that carries the previous draft and the founder's
 * feedback. Neither checks the parsed reply.
 */
module EmailWriter {
  import opened Wrappers
  import opened Text
  import opened Json
  import opened Prompt
  import opened LlmReply
  import opened DeepResearch

  datatype WriterInput = WriterInput(
    project: ProjectContext,
    research: InvestorResearch,
    fundingAsk: Option<string>,
    additionalContext: Option<string>)

  datatype GeneratedEmail = GeneratedEmail(subject: string, body: string)

  const GenerateError: string := "Failed to generate email with AI"
  const RegenerateError: string := "Failed to regenerate email with AI"
  const Model: string := "claude-sonnet-4-5-20250929"
  const MaxTokens: nat := 2048
  const NoInvestments: string := "No recent investments found"
  const NoActivity: string := "No recent activity found"
  const NoTalkingPoints: string := "No talking points"

  const SystemPrompt: string :=
    "You are an expert cold email writer for startup founders reaching out to investors.\n"
    + "\n"
    + "Your goal is to write highly personalized, compelling cold emails that:\n"
    + "1. Reference specific, recent information about the investor\n"
    + "2. Make a clear connection between the investor's interests and the startup\n"
    + "3. Are concise (150-200 words max)\n"
    + "4. Feel authentic and human, not templated\n"
    + "5. Have a clear, low-friction ask\n"
    + "\n"
    + "Cold email best practices:\n"
    + "- Start with a personalized hook referencing their recent activity\n"
    + "- Briefly explain what the company does (1-2 sentences)\n"
    + "- Make the connection explicit - why are you reaching out to THEM specifically\n"
    + "- Keep it conversational and humble\n"
    + "- End with a simple ask (usually 15-20 min call)\n"
    + "- NO hype language, NO corporate speak\n"
    + "- Make it sound like a founder genuinely researched them\n"
    + "\n"
    + "Subject line best practices:\n"
    + "- Short (5-8 words)\n"
    + "- Can reference their recent activity or investment\n"
    + "- Not salesy or generic\n"
    + "- Piques curiosity\n"
    + "\n"
    + "Output format:\n"
    + "{\n"
    + "  \"subject\": \"Your subject line here\",\n"
    + "  \"body\": \"Hi [First Name],\\n\\nEmail body here...\\n\\nBest,\\n[Founder Name]\"\n"
    + "}\n"
    + "\n"
    + "IMPORTANT:\n"
    + "- Use the investor's FIRST NAME only in the greeting\n"
    + "- Leave [Founder Name] as a placeholder - don't make up a name\n"
    + "- Make sure to reference at least 2-3 specific things from the research\n"
    + "- Sound like a human, not a robot"

  const RevisionSystemPrompt: string :=
    "You are an expert cold email writer for startup founders reaching out to investors.\n"
    + "\n"
    + "The founder has given feedback on a previous draft. Incorporate their feedback while maintaining cold email best practices.\n"
    + "\n"
    + "Output format:\n"
    + "{\n"
    + "  \"subject\": \"Your subject line here\",\n"
    + "  \"body\": \"Hi [First Name],\\n\\nEmail body here...\\n\\nBest,\\n[Founder Name]\"\n"
    + "}"

  function InvestmentLine(inv: RecentInvestment): string
  {
    "- Invested in " + inv.company + " (" + inv.stage + ", " + inv.date + "): " + inv.description
  }

  function ActivityLine(act: RecentActivity): string
  {
    "- " + act.kind.Name() + ": " + act.content + " (" + act.date + ")"
  }

  function TalkingPointLine(point: TalkingPoint): string
  {
    "- " + point.hook + " (" + point.source + ")"
  }

  /** `list?.slice(0, 3).map(line).join('\n') || fallback`, written once for the three blocks that use it. */
  function ListBlock<T>(list: Option<seq<T>>, limit: Option<nat>, line: T -> string, fallback: string): string
  {
    var shown := if list.None? then [] else if limit.Some? then Slice(list.value, limit.value) else list.value;
    var joined := Join(seq(|shown|, i requires 0 <= i < |shown| => line(shown[i])), "\n");
    if list.None? || joined == "" then fallback else joined
  }

  function InvestmentsBlock(research: InvestorResearch): string
  {
    ListBlock(research.recentInvestments, Some(3), InvestmentLine, NoInvestments)
  }

  function ActivityBlock(research: InvestorResearch): string
  {
    ListBlock(research.recentActivity, Some(3), ActivityLine, NoActivity)
  }

  function TalkingPointsBlock(research: InvestorResearch): string
  {
    ListBlock(research.talkingPoints, None, TalkingPointLine, NoTalkingPoints)
  }

  /** A line of prompt text: no line break inside. */
  predicate OneLine(s: string)
  {
    '\n' !in s
  }

  /** The entries a block shows: all of them, or the first `limit`. */
  function Shown<T>(list: seq<T>, limit: Option<nat>): seq<T>
  {
    if limit.Some? then Slice(list, limit.value) else list
  }

  /** The first line of a joined block is its first item. */
  lemma JoinStartsWithFirst(xs: seq<string>, sep: string)
    requires xs != []
    ensures xs[0] <= Join(xs, sep)
  {
  }

  /**
   * A present, non-empty list yields its own lines, never the fallback: the
   * block splits back into one line per shown entry, in order.
   */
  lemma ListBlockLines<T>(list: seq<T>, limit: Option<nat>, line: T -> string, fallback: string)
    requires list != [] && limit != Some(0)
    requires forall i :: 0 <= i < |list| ==> OneLine(line(list[i])) && line(list[i]) != ""
    ensures var shown := Shown(list, limit);
      Split(ListBlock(Some(list), limit, line, fallback), '\n') == seq(|shown|, i requires 0 <= i < |shown| => line(shown[i]))
  {
    var shown := Shown(list, limit);
    var lines := seq(|shown|, i requires 0 <= i < |shown| => line(shown[i]));
    assert shown[0] == list[0];
    JoinStartsWithFirst(lines, "\n");
    assert Join(lines, "\n") != "";
    forall i | 0 <= i < |lines| ensures '\n' !in lines[i] {
      assert shown[i] == list[i];
    }
    SplitJoin(lines, '\n');
  }

  /** With no list, or an empty one, the block is the fallback text. */
  lemma ListBlockFallback<T>(list: Option<seq<T>>, limit: Option<nat>, line: T -> string, fallback: string)
    requires list.None? || list.value == []
    ensures ListBlock(list, limit, line, fallback) == fallback
  {
    if list.Some? {
      assert Shown(list.value, limit) == [];
    }
  }

  /** The block is the fallback text exactly when the list is missing or empty. */
  lemma ListBlockIsFallbackIff<T>(list: Option<seq<T>>, limit: Option<nat>, line: T -> string, fallback: string)
    requires limit != Some(0)
    requires fallback != [] && fallback[0] != '-'
    requires list.Some? ==> forall i :: 0 <= i < |list.value| ==> line(list.value[i]) != [] && line(list.value[i])[0] == '-'
    ensures ListBlock(list, limit, line, fallback) == fallback <==> list.None? || list.value == []
  {
    if list.Some? && list.value != [] {
      var shown := Shown(list.value, limit);
      var lines := seq(|shown|, i requires 0 <= i < |shown| => line(shown[i]));
      assert shown[0] == list.value[0];
      JoinStartsWithFirst(lines, "\n");
    } else {
      ListBlockFallback(list, limit, line, fallback);
    }
  }

  /** The first n entries of a list, n at most three: what `slice(0, 3)` keeps. */
  function FirstThree<T>(list: seq<T>, line: T -> string): seq<string>
  {
    var n := if |list| < 3 then |list| else 3;
    seq(n, i requires 0 <= i < n => line(list[i]))
  }

  /** The lines of the entries a three-entry block shows are those of the first three entries. */
  lemma ShownFirstThree<T>(list: seq<T>, line: T -> string)
    ensures var shown := Shown(list, Some(3));
      seq(|shown|, i requires 0 <= i < |shown| => line(shown[i])) == FirstThree(list, line)
  {
    var shown := Shown(list, Some(3));
    assert forall i :: 0 <= i < |shown| ==> shown[i] == list[i];
  }

  /**
   * A block whose entry lines are single lines starting with "-", and whose
   * fallback does not, is the fallback exactly when there is nothing to show,
   * and otherwise splits back into the lines of the entries it shows.
   */
  lemma ListBlockShows<T>(list: Option<seq<T>>, limit: Option<nat>, line: T -> string, fallback: string)
    requires limit != Some(0)
    requires fallback != [] && fallback[0] != '-'
    requires list.Some? ==> forall i :: 0 <= i < |list.value| ==>
      OneLine(line(list.value[i])) && line(list.value[i]) != [] && line(list.value[i])[0] == '-'
    ensures ListBlock(list, limit, line, fallback) == fallback <==> list.None? || list.value == []
    ensures list.Some? && list.value != [] ==> var shown := Shown(list.value, limit);
      Split(ListBlock(list, limit, line, fallback), '\n') == seq(|shown|, i requires 0 <= i < |shown| => line(shown[i]))
  {
    if list.Some? && list.value != [] {
      ListBlockLines(list.value, limit, line, fallback);
    }
    ListBlockIsFallbackIff(list, limit, line, fallback);
  }

  /**
   * The investments block lists the first three investments, one line each and
   * in order, and says "No recent investments found" exactly when there are none.
   */
  lemma InvestmentsBlockShowsFirstThree(research: InvestorResearch)
    requires var list := research.recentInvestments;
      list.Some? ==> forall i :: 0 <= i < |list.value| ==>
        OneLine(list.value[i].company + list.value[i].stage + list.value[i].date + list.value[i].description)
    ensures InvestmentsBlock(research) == NoInvestments <==> research.recentInvestments.None? || research.recentInvestments.value == []
    ensures var list := research.recentInvestments;
      list.Some? && list.value != [] ==> Split(InvestmentsBlock(research), '\n') == FirstThree(list.value, InvestmentLine)
  {
    var list := research.recentInvestments;
    if list.Some? {
      forall i | 0 <= i < |list.value|
        ensures OneLine(InvestmentLine(list.value[i])) && InvestmentLine(list.value[i]) != [] && InvestmentLine(list.value[i])[0] == '-'
      {
        var inv := list.value[i];
        assert OneLine(inv.company + inv.stage + inv.date + inv.description);
      }
      ShownFirstThree(list.value, InvestmentLine);
    }
    ListBlockShows(list, Some(3), InvestmentLine, NoInvestments);
  }

  /**
   * The activity block lists the first three activities, one line each and in
   * order, and says "No recent activity found" exactly when there are none.
   */
  lemma ActivityBlockShowsFirstThree(research: InvestorResearch)
    requires var list := research.recentActivity;
      list.Some? ==> forall i :: 0 <= i < |list.value| ==> OneLine(list.value[i].content + list.value[i].date)
    ensures ActivityBlock(research) == NoActivity <==> research.recentActivity.None? || research.recentActivity.value == []
    ensures var list := research.recentActivity;
      list.Some? && list.value != [] ==> Split(ActivityBlock(research), '\n') == FirstThree(list.value, ActivityLine)
  {
    var list := research.recentActivity;
    if list.Some? {
      forall i | 0 <= i < |list.value|
        ensures OneLine(ActivityLine(list.value[i])) && ActivityLine(list.value[i]) != [] && ActivityLine(list.value[i])[0] == '-'
      {
        var act := list.value[i];
        assert OneLine(act.content + act.date);
        assert OneLine(act.kind.Name());
      }
      ShownFirstThree(list.value, ActivityLine);
    }
    ListBlockShows(list, Some(3), ActivityLine, NoActivity);
  }

  /**
   * The talking-points block lists every talking point, one line each and in
   * order (no cut-off), and says "No talking points" exactly when there are none.
   */
  lemma TalkingPointsBlockShowsAll(research: InvestorResearch)
    requires var list := research.talkingPoints;
      list.Some? ==> forall i :: 0 <= i < |list.value| ==> OneLine(list.value[i].hook + list.value[i].source)
    ensures TalkingPointsBlock(research) == NoTalkingPoints <==> research.talkingPoints.None? || research.talkingPoints.value == []
    ensures var list := research.talkingPoints;
      list.Some? && list.value != [] ==>
        Split(TalkingPointsBlock(research), '\n') == seq(|list.value|, i requires 0 <= i < |list.value| => TalkingPointLine(list.value[i]))
  {
    var list := research.talkingPoints;
    if list.Some? {
      forall i | 0 <= i < |list.value|
        ensures OneLine(TalkingPointLine(list.value[i])) && TalkingPointLine(list.value[i]) != [] && TalkingPointLine(list.value[i])[0] == '-'
      {
        var point := list.value[i];
        assert OneLine(point.hook + point.source);
      }
    }
    ListBlockShows(list, None, TalkingPointLine, NoTalkingPoints);
  }

  // ---------------------------------------------------------------------------
  // The prompts.

  /** The user prompt, line by line; each research block is one entry (it may span several lines). */
  function UserPromptLines(input: WriterInput): (r: seq<string>)
    ensures |r| == 35
  {
    IntroLines(input) + StartupLines(input) + InvestorLines(input.research)
    + ResearchLines(input.research) + RequestLines(input.project.name)
  }

  function IntroLines(input: WriterInput): (r: seq<string>)
    ensures |r| == 5
  {
    [
      ScenarioLine,
      "",
      "**The Startup:**",
      "- Company: " + input.project.name,
      "- Description: " + input.project.oneLiner
    ]
  }

  const ScenarioLine: string := "Write a personalized cold email for this scenario:"

  function InvestorLines(research: InvestorResearch): (r: seq<string>)
    ensures |r| == 6
  {
    [
      "",
      "**The Investor:**",
      "- Name: " + research.investorName,
      "- Firm: " + research.firm,
      "- Background: " + research.background,
      ""
    ]
  }

  /** The industry, stage, funding ask and additional context lines, each empty unless given. */
  function StartupLines(input: WriterInput): (r: seq<string>)
    ensures |r| == 4
  {
    ProjectLines(input.project)
    + [OptionalLine("- Raising: ", input.fundingAsk), OptionalLine("- Additional Context: ", input.additionalContext)]
  }

  function ResearchLines(research: InvestorResearch): (r: seq<string>)
    ensures |r| == 12
  {
    [
      "**Recent Research:**",
      InvestmentsBlock(research),
      "",
      "**Recent Activity:**",
      ActivityBlock(research),
      "",
      "**Key Talking Points:**",
      TalkingPointsBlock(research),
      "",
      "**Why They're a Good Fit:**",
      research.whyGoodFit,
      ""
    ]
  }

  function RequestLines(name: string): (r: seq<string>)
    ensures |r| == 8
  {
    [RequestIntro, ReferenceItem, "2. Clearly explains what " + name + " does"] + RequestRules
  }

  const RequestIntro: string := "Write a cold email that:"
  const ReferenceItem: string := "1. References at least 2 specific things from the research above"

  /** The remaining items of the request and the reply format. */
  const RequestRules: seq<string> := [
    "3. Makes the connection between their interests and this startup",
    "4. Asks for a 15-20 minute call",
    "5. Feels authentic and researched, not templated",
    "",
    "Return ONLY the JSON object with subject and body."
  ]

  /**
   * Lines 5 to 8 carry industry, stage, funding ask and additional context:
   * each is empty unless its input is truthy, and then reads back that input.
   * Lines 16, 19 and 22 hold the investments, activity and talking-points blocks.
   */
  lemma UserPromptLayout(input: WriterInput)
    ensures var r := UserPromptLines(input);
      && (r[5] != "" <==> Given(input.project.industry))
      && (r[6] != "" <==> Given(input.project.stage))
      && (r[7] != "" <==> Given(input.fundingAsk))
      && (r[8] != "" <==> Given(input.additionalContext))
    ensures var r := UserPromptLines(input);
      && ReadLine(r[5], "- Industry: ") == Present(input.project.industry)
      && ReadLine(r[6], "- Stage: ") == Present(input.project.stage)
      && ReadLine(r[7], "- Raising: ") == Present(input.fundingAsk)
      && ReadLine(r[8], "- Additional Context: ") == Present(input.additionalContext)
    ensures var r := UserPromptLines(input);
      r[16] == InvestmentsBlock(input.research) && r[19] == ActivityBlock(input.research) && r[22] == TalkingPointsBlock(input.research)
  {
    BlocksAt(UserPromptLines(input), IntroLines(input), StartupLines(input), InvestorLines(input.research),
      ResearchLines(input.research), RequestLines(input.project.name));
    ReadOptionalLine("- Industry: ", input.project.industry);
    ReadOptionalLine("- Stage: ", input.project.stage);
    ReadOptionalLine("- Raising: ", input.fundingAsk);
    ReadOptionalLine("- Additional Context: ", input.additionalContext);
  }

  function Request(input: WriterInput): MessageRequest
  {
    MessageRequest(Model, MaxTokens, SystemPrompt, Lines(UserPromptLines(input)))
  }

  /** The revision prompt: the previous draft, the feedback, and who it is for. */
  function RevisionPromptLines(input: WriterInput, feedback: string, previous: GeneratedEmail): (r: seq<string>)
    ensures |r| == 16
  {
    [
      RevisionIntro,
      "",
      PreviousHeading,
      "Subject: " + previous.subject,
      "Body: " + previous.body,
      "",
      FeedbackHeading,
      feedback,
      "",
      ContextHeading,
      "Company: " + input.project.name,
      "Investor: " + input.research.investorName + " at " + input.research.firm
    ]
    + RevisionRules
  }

  const RevisionIntro: string := "The founder wants to revise this email:"
  const PreviousHeading: string := "**Previous Email:**"
  const FeedbackHeading: string := "**Founder's Feedback:**"
  const ContextHeading: string := "**Context (for reference):**"

  /** The revision instructions and the reply format. */
  const RevisionRules: seq<string> := [
    "",
    "Please revise the email based on the feedback while keeping it personalized and effective.",
    "",
    "Return ONLY the JSON object with the new subject and body."
  ]

  predicate IsFeedbackHeading(line: string)
  {
    line == FeedbackHeading
  }

  predicate IsContextHeading(line: string)
  {
    line == ContextHeading
  }

  /**
   * Reading the previous draft and the feedback back out of a revision prompt:
   * the subject from its labelled line, the body from its labelled line up to
   * the line before the feedback heading, and the feedback from the line after
   * that heading up to the line before the context heading.
   */
  function ReadRevision(text: string): Option<(GeneratedEmail, string)>
  {
    var lines := Split(text, '\n');
    if |lines| < 5 then None
    else
      var j := NextLine(lines, 4, IsFeedbackHeading);
      if j == |lines| || j < 5 then None
      else
        var k := NextLine(lines, j + 1, IsContextHeading);
        if k == |lines| || k < j + 2 then None
        else
          var subject := ReadLine(lines[3], "Subject: ");
          var body := ReadLine(Lines(lines[4..j - 1]), "Body: ");
          if subject.None? || body.None? then None
          else Some((GeneratedEmail(subject.value, body.value), Lines(lines[j + 1..k - 1])))
  }

  /**
   * The revision prompt carries the previous draft and the feedback so that they
   * read back exactly, line breaks in the body and the feedback included, when
   * the subject is one line, no line of the body is the feedback heading and no
   * line of the feedback is the context heading.
   */
  lemma RevisionPromptReadBack(input: WriterInput, feedback: string, previous: GeneratedEmail)
    requires '\n' !in previous.subject
    requires NoLineIs(previous.body, IsFeedbackHeading)
    requires NoLineIs(feedback, IsContextHeading)
    ensures ReadRevision(Lines(RevisionPromptLines(input, feedback, previous))) == Some((previous, feedback))
  {
    var r := RevisionPromptLines(input, feedback, previous);
    RevisionPromptSplit(r, previous.subject, previous.body, feedback);
    BodyLineNoHeading(previous.body);
    ReadRevisionOf(Lines(r), previous.subject, previous.body, feedback, Split(Lines(r[10..]), '\n'));
  }

  /** The lines of the labelled body line are no feedback heading when those of the body are not. */
  lemma BodyLineNoHeading(body: string)
    requires NoLineIs(body, IsFeedbackHeading)
    ensures NoLineIs("Body: " + body, IsFeedbackHeading)
  {
    SplitLabelled("Body: ", body, '\n');
    FeedbackHeadingFacts();
    assert ("Body: " + Split(body, '\n')[0])[0] == 'B';
  }

  /** How the revision prompt splits into lines, up to the context heading. */
  lemma RevisionPromptSplit(r: seq<string>, subject: string, body: string, feedback: string)
    requires |r| > 10 && '\n' !in subject
    requires r[..10] == [RevisionIntro, "", PreviousHeading, "Subject: " + subject, "Body: " + body, "", FeedbackHeading, feedback, "", ContextHeading]
    ensures Split(Lines(r), '\n') == [RevisionIntro, "", PreviousHeading, "Subject: " + subject] + Split("Body: " + body, '\n')
      + ["", FeedbackHeading] + Split(feedback, '\n') + ["", ContextHeading] + Split(Lines(r[10..]), '\n')
  {
    var front := [RevisionIntro, "", PreviousHeading, "Subject: " + subject];
    var middle := ["", FeedbackHeading];
    var last := ["", ContextHeading];
    assert r == front + ["Body: " + body] + middle + [feedback] + last + r[10..];
    RevisionHeadingsOneLine();
    OneLineEach(front);
    OneLineEach(middle);
    OneLineEach(last);
    SplitLinesAppend(front + ["Body: " + body] + middle + [feedback] + last, r[10..]);
    SplitLinesAppend(front + ["Body: " + body] + middle + [feedback], last);
    SplitLinesAppend(front + ["Body: " + body] + middle, [feedback]);
    SplitLinesAppend(front + ["Body: " + body], middle);
    SplitLinesAppend(front, ["Body: " + body]);
  }

  lemma RevisionHeadingsOneLine()
    ensures '\n' !in RevisionIntro && '\n' !in PreviousHeading && '\n' !in FeedbackHeading && '\n' !in ContextHeading
  {
    IntroOneLine();
    PreviousHeadingOneLine();
    FeedbackHeadingFacts();
    ContextHeadingFacts();
  }

  lemma IntroOneLine()
    ensures '\n' !in RevisionIntro
  {
  }

  lemma PreviousHeadingOneLine()
    ensures '\n' !in PreviousHeading
  {
  }

  lemma FeedbackHeadingFacts()
    ensures '\n' !in FeedbackHeading && FeedbackHeading[0] == '*' && FeedbackHeading != ""
  {
  }

  lemma ContextHeadingFacts()
    ensures '\n' !in ContextHeading && ContextHeading != ""
  {
  }

  /** Lines that hold no line break split back into themselves. */
  lemma OneLineEach(lines: seq<string>)
    requires lines != [] && forall line <- lines :: '\n' !in line
    ensures Split(Lines(lines), '\n') == lines
  {
    SplitJoin(lines, '\n');
  }

  /** The reader on the lines of a revision prompt. */
  lemma ReadRevisionOf(text: string, subject: string, body: string, feedback: string, tail: seq<string>)
    requires Split(text, '\n') == [RevisionIntro, "", PreviousHeading, "Subject: " + subject] + Split("Body: " + body, '\n')
      + ["", FeedbackHeading] + Split(feedback, '\n') + ["", ContextHeading] + tail
    requires NoLineIs("Body: " + body, IsFeedbackHeading) && NoLineIs(feedback, IsContextHeading)
    ensures ReadRevision(text) == Some((GeneratedEmail(subject, body), feedback))
  {
    var lines := Split(text, '\n');
    var bodyLines, feedbackLines := Split("Body: " + body, '\n'), Split(feedback, '\n');
    HeadingsFound(lines, [RevisionIntro, "", PreviousHeading, "Subject: " + subject], bodyLines, feedbackLines, tail);
    var j, k := 5 + |bodyLines|, 7 + |bodyLines| + |feedbackLines|;
    assert |lines| > k;
    assert NextLine(lines, 4, IsFeedbackHeading) == j && NextLine(lines, j + 1, IsContextHeading) == k;
    JoinSplit("Body: " + body, '\n');
    JoinSplit(feedback, '\n');
    ReadLineOfLabelled("Subject: ", subject);
    ReadLineOfLabelled("Body: ", body);
    assert ReadLine(lines[3], "Subject: ") == Some(subject);
    assert lines[4..j - 1] == bodyLines && Lines(bodyLines) == "Body: " + body;
    assert lines[j + 1..k - 1] == feedbackLines && Lines(feedbackLines) == feedback;
    ReadRevisionAt(text, j, k, subject, body, feedback);
  }

  /** The reader's verdict once the two headings are found and the three values read. */
  lemma ReadRevisionAt(text: string, j: nat, k: nat, subject: string, body: string, feedback: string)
    requires var lines := Split(text, '\n');
      |lines| >= 5 && 5 <= j < |lines| && j + 2 <= k < |lines|
      && NextLine(lines, 4, IsFeedbackHeading) == j && NextLine(lines, j + 1, IsContextHeading) == k
      && ReadLine(lines[3], "Subject: ") == Some(subject)
      && ReadLine(Lines(lines[4..j - 1]), "Body: ") == Some(body)
      && Lines(lines[j + 1..k - 1]) == feedback
    ensures ReadRevision(text) == Some((GeneratedEmail(subject, body), feedback))
  {
  }

  /** Where the reader finds the two headings, and the lines it takes for the body and the feedback. */
  lemma HeadingsFound(lines: seq<string>, front: seq<string>, bodyLines: seq<string>, feedbackLines: seq<string>, tail: seq<string>)
    requires |front| == 4 && |bodyLines| >= 1 && |feedbackLines| >= 1
    requires lines == front + bodyLines + ["", FeedbackHeading] + feedbackLines + ["", ContextHeading] + tail
    requires forall line <- bodyLines :: !IsFeedbackHeading(line)
    requires forall line <- feedbackLines :: !IsContextHeading(line)
    ensures var j := 5 + |bodyLines|;
      NextLine(lines, 4, IsFeedbackHeading) == j && lines[4..j - 1] == bodyLines && lines[3] == front[3]
      && NextLine(lines, j + 1, IsContextHeading) == j + 2 + |feedbackLines| && lines[j + 1..j + 1 + |feedbackLines|] == feedbackLines
  {
    var j := 5 + |bodyLines|;
    var k := j + 2 + |feedbackLines|;
    FeedbackHeadingFacts();
    ContextHeadingFacts();
    forall i | 4 <= i < j ensures !IsFeedbackHeading(lines[i]) {
      if i < j - 1 {
        assert lines[i] == bodyLines[i - 4];
      }
    }
    NextLineAt(lines, 4, j, IsFeedbackHeading);
    forall i | j + 1 <= i < k ensures !IsContextHeading(lines[i]) {
      if i < k - 1 {
        assert lines[i] == feedbackLines[i - j - 1];
      }
    }
    NextLineAt(lines, j + 1, k, IsContextHeading);
  }

  function RevisionRequest(input: WriterInput, feedback: string, previous: GeneratedEmail): MessageRequest
  {
    MessageRequest(Model, MaxTokens, RevisionSystemPrompt, Lines(RevisionPromptLines(input, feedback, previous)))
  }

  // ---------------------------------------------------------------------------
  // The replies: parsed and returned as they are.

  /** `generateEmail` after the API call: whatever parses is returned unchecked. */
  function GenerateEmail(outcome: ApiOutcome, parse: string -> Option<Json>): (r: Result<Json, string>)
    ensures r.Success? <==> ParsedReply(outcome, parse).Some?
    ensures r.Success? ==> r.value == ParsedReply(outcome, parse).value
    ensures r.Failure? ==> r.error == GenerateError
  {
    match ParsedReply(outcome, parse)
    case None => Failure(GenerateError)
    case Some(v) => Success(v)
  }

  /** `regenerateEmail` after the API call: the same, with its own error message. */
  function RegenerateEmail(outcome: ApiOutcome, parse: string -> Option<Json>): (r: Result<Json, string>)
    ensures r.Success? <==> ParsedReply(outcome, parse).Some?
    ensures r.Success? ==> r.value == ParsedReply(outcome, parse).value
    ensures r.Failure? ==> r.error == RegenerateError
  {
    match ParsedReply(outcome, parse)
    case None => Failure(RegenerateError)
    case Some(v) => Success(v)
  }
}
