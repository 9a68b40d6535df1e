# Reachround core, modelled in Dafny

Reachround helps a startup founder raise money. It finds investors with an LLM and researches them. It writes cold emails to them and sends the emails through the founder's Gmail account. This project models the parts of it that hold sequential logic, and proves what that logic promises.

- **The five LLM agents** (`lib/agents/*.ts`): investor finder, investor researcher, deep research, email writer and email generator.
  - Each agent builds a prompt from its input. Optional facts appear as lines that are empty when the fact is missing.
  - Each one sends the prompt with a fixed model name and token budget.
  - Each one post-processes the reply the same way: the first content block must be text; it is trimmed; when it starts with a markdown fence, every "```json" and then every "```" marker is removed.
  - Each one checks the parsed value in its own way, and any failure becomes one fixed error message.
  - Deep research also keeps a numbered log of progress steps. It is modelled as a class whose `AddStep` appends to the log.
- **The Gmail client** (`lib/gmail/client.ts`).
  - The raw message joins `To:`, `Subject:`, the content type, an empty line and the body with a bare line feed.
  - The message is UTF-8 encoded, then base64 encoded (section 4 of RFC 4648). It is then mapped to the URL-safe alphabet without padding (section 5 of RFC 4648).
  - The stored access token is used while it has not expired; otherwise it is refreshed and the row is updated.
  - `checkGmailConnection` is true only when a token row is found.
- **The route guard** (`middleware.ts`): a pure decision on the path and on whether a session exists.
- **The investor-finder dialog** (`components/investors/InvestorFinderModal.tsx`): a class holding the dialog state. It covers the count check, selecting results, adding the selected ones, and the reset on close.
- **The dashboard statistics** (`app/api/stats/route.ts`): investors and sent emails are counted two ways, campaign-based plus project-based with no campaign. The counts are accumulated with `+=`.
- **The string unions** of `types/index.ts`, as datatypes.

## How the model is laid out

- **Shared modules.**
  - `wrappers.dfy`: `Option` and `Result`.
  - `text.dfy`: the JavaScript string operations used, which are `trim`, `startsWith`, `slice`, `join`, `split`, number formatting and `parseInt`.
  - `json.dfy`: the values `JSON.parse` returns, property access and JavaScript truthiness.
  - `prompt.dfy`: the optional template lines `${x ? `tag${x}` : ''}`.
  - `llm_reply.dfy`: the reply pipeline.
  - `domain.dfy`: the status unions.
  - `base64.dfy` and `utf8.dfy`: the encodings.
- **One module per modelled source file.** `investor_finder.dfy`, `investor_researcher.dfy`, `deep_research.dfy`, `email_writer.dfy`, `email_generator.dfy`, `gmail.dfy`, `middleware.dfy`, `finder_modal.dfy` and `stats.dfy`.
- **Inputs from the outside world are parameters.**
  - The LLM call is an `ApiOutcome` parameter: an error, or the content blocks of a reply.
  - `JSON.parse` is a parameter `parse: string -> Option<Json>`.
  - The current time, the database query outcomes, the OAuth refresh, the Gmail API response and the HTTP responses the dialog receives are all parameters.
  - Thrown exceptions are modelled as the `Failure` case of a `Result`, or as a flag.

### Where the code and its own comments or documents differ

- `sendEmail`'s comment says the message is in RFC 2822 format. The code joins lines with `"\n"`, while section 2.1 of RFC 2822 requires CRLF. The model follows the code: `Gmail.RawMessage` joins with a bare line feed.
- The dialog's count check `!count || parseInt(count) < 1` lets a count that `parseInt` cannot read through, because NaN is not below 1 (`FinderModal.UnreadableCountPasses`). The dialog only offers 3, 5, 10 and 15, and these all pass (`FinderModal.OfferedCountsAccepted`).
- Each result row toggles its investor on click (`components/investors/InvestorFinderModal.tsx:212`), and so does the checkbox inside it (line 218). A click on the checkbox runs its `onChange` and then bubbles up to the row's `onClick`, so `toggleSelection` runs twice. Both updates are functional, so the second undoes the first and the selection does not change. `FinderModal.ToggleTwice` proves that two toggles of the same index restore the results.
- A line feed in the recipient or the subject ends that header early and can start another header. `Gmail.ParseRawMessage` proves that a reader gets the three values back exactly when neither header contains one.

## Model

| member | source | states |
|---|---|---|
| LlmReply.ExtractJson | lib/agents/deep-research.ts:184-189 | the text handed to `JSON.parse` is the trimmed reply; when the trimmed reply starts with a fence, no "```" is left in it at all |
| LlmReply.ParsedReply | lib/agents/investor-finder.ts:88-101 | a value is parsed only when the call succeeded and the first block is text; it is `parse` of the extracted text |
| LlmReply.RemoveMarkers | lib/agents/email-writer.ts:129 | one global `replace(/marker\n?/g, '')` never lengthens the text |
| LlmReply.NoFenceAfterRemove | lib/agents/investor-researcher.ts:127 | after the "```" pass no "```" remains anywhere in the text |
| LlmReply.StripFences | lib/agents/email-writer.ts:129 | the strip every agent applies: every "```json" marker, then every "```" marker, each with the line feed after it (no contract of its own; the four lemmas on StripFences state its properties) |
| LlmReply.StripFencesIdempotent | lib/agents/email-generator.ts:164 | stripping fences twice gives the same text as stripping once |
| LlmReply.StripFencesWithoutFence | lib/agents/email-generator.ts:163-165 | text with no fence passes through the strip unchanged |
| LlmReply.StripFencesDeletesOnlyMarkers | lib/agents/deep-research.ts:188 | the strip only deletes characters; every character other than a backtick, a newline or a letter of "json" survives, with its count and in order |
| Text.TrimIsInfix | lib/agents/email-writer.ts:125 | `trim()` returns the input with leading and trailing JavaScript whitespace removed and nothing else; its ends are not whitespace |
| Text.TrimIdempotent | lib/agents/investor-finder.ts:94 | trimming twice is trimming once |
| Text.Slice | lib/agents/investor-finder.ts:104 | `slice(0, end)` is a prefix of length `end`, or the whole list when it is shorter; a negative `end` counts from the back |
| Text.ParseIntOfIntToString | components/investors/InvestorFinderModal.tsx:40 | `parseInt` reads back every integer written in decimal, over the model's unbounded integers (the width of a JavaScript number is under "## Left out") |
| Text.ParseIntOfIntToStringThen | lib/agents/deep-research.ts:193 | `parseInt` of a decimal integer followed by a character that is neither a digit nor `x` stops there and gives the integer, over the model's unbounded integers |
| Text.SplitJoin | lib/gmail/client.ts:82-88 | joining lines that contain no separator, then splitting, gives the lines back |
| Text.SplitAppend | lib/gmail/client.ts:88 | splitting a text joined at one separator splits each side on its own |
| Text.JoinSplit | lib/gmail/client.ts:87-88 | joining the pieces of a split gives the text back |
| Text.UnbulletBulletLines | lib/agents/email-generator.ts:107-113 | the `- item` bullet lines read back as the items |
| Json.LookupSkipsOtherKeys | lib/agents/investor-researcher.ts:132-140 | members with other keys appended to an object do not change a property lookup |
| Prompt.ReadOptionalLine | lib/agents/investor-researcher.ts:83-86 | an optional template line is non-empty exactly when its value is truthy, and reading the tag off it gives the value back |
| Prompt.Between | lib/agents/deep-research.ts:128 | the text between a known lead and a known close; when there is one, lead, text and close make up the whole |
| Prompt.OptionalBetween | lib/agents/email-generator.ts:88 | an optional `${x ? tag + x : ''}` piece between a fixed lead and a fixed close reads back: empty exactly when x is falsy, and otherwise x after its tag |
| Prompt.ReadLineOfLabelled | lib/agents/email-writer.ts:160-161 | a labelled line reads back as its value |
| Prompt.NextLine | lib/agents/email-writer.ts:156-171 | the index found is the first line at or after the start that the test accepts, or the end when there is none |
| Prompt.ReadSectionsText | lib/agents/email-generator.ts:99-113 | sections `\n<heading>\n<text>\n` one after another read back from their text as each heading with its text's lines, in order, when the headings are one-line heading lines and no line of a text is one |
| Prompt.BulletBlockReadBack | lib/agents/email-generator.ts:107-113 | a bullet block splits into one `- item` line per item, and the items read back |
| InvestorFinder.CriteriaLinesReadBack | lib/agents/investor-finder.ts:66-69 | entries 5-8 of the prompt's line list are non-empty exactly when industry, stage, geography and criteria are truthy, and each reads back as its value |
| InvestorFinder.SystemPrompt | lib/agents/investor-finder.ts:30-60 | the system prompt, with the requested count printed in its third line (no contract of its own; InvestorFinder.SystemPromptCountReadsBack states what it carries) |
| InvestorFinder.SystemPromptCountReadsBack | lib/agents/investor-finder.ts:30-32 | `parseInt` of the system prompt after the role line, the empty line and "Given information about a startup, you will identify " gives back exactly the requested count |
| InvestorFinder.UserPromptLines | lib/agents/investor-finder.ts:62-73 | the finder's prompt as a list of 12 template lines; entries 5-8 carry the criteria |
| InvestorFinder.Request | lib/agents/investor-finder.ts:76-86 | the request: model `claude-3-5-sonnet-20240620`, 4096 tokens, the system prompt for the count and the joined prompt lines (no contract of its own) |
| InvestorFinder.FindInvestors | lib/agents/investor-finder.ts:88-108 | every failure is "Failed to find investors with AI"; it succeeds exactly when the reply parses to an array or a string, the values that have a `slice` method |
| InvestorFinder.FindReturnsFirstMatches | lib/agents/investor-finder.ts:104 | for an array reply and count >= 0, the result is the first `min(count, n)` investors in order, or all of them when count >= n |
| InvestorResearcher.UserPromptReadBack | lib/agents/investor-researcher.ts:79-102 | the firm, title, LinkedIn, Twitter, industry and stage entries of the prompt's line list are non-empty exactly when their value is truthy, and each reads back as its value |
| InvestorResearcher.UserPromptLines | lib/agents/investor-researcher.ts:79-102 | the researcher's prompt as a list of 24 template lines |
| InvestorResearcher.Request | lib/agents/investor-researcher.ts:105-115 | the request: model `claude-sonnet-4-5-20250929`, 2048 tokens, the system prompt and the joined prompt lines (no contract of its own) |
| InvestorResearcher.Acceptable | lib/agents/investor-researcher.ts:133-138 | the reply check: `summary`, `investment_focus`, `thesis_alignment` and `confidence_score` are all present and truthy (no contract of its own; InvestorResearcher.ResearchInvestor, VerdictIgnoresOtherMembers and TruthinessEdgeCases state its properties) |
| InvestorResearcher.ResearchInvestor | lib/agents/investor-researcher.ts:130-146 | every failure is "Failed to research investor with AI"; it succeeds exactly when the parsed reply has truthy `summary`, `investment_focus`, `thesis_alignment` and `confidence_score`, and it returns that reply |
| InvestorResearcher.VerdictIgnoresOtherMembers | lib/agents/investor-researcher.ts:133-138 | only the four required members decide whether a reply is accepted |
| InvestorResearcher.TruthinessEdgeCases | lib/agents/investor-researcher.ts:133-138 | an empty `investment_focus` array is accepted (arrays are truthy), and a `confidence_score` of 0 is rejected |
| DeepResearch.ResearchLog.constructor | lib/agents/deep-research.ts:109-110 | the log starts empty with step number 0 |
| DeepResearch.ResearchLog.AddStep | lib/agents/deep-research.ts:112-124 | appends one step numbered one past the last, keeps the numbering 1..n, and passes the step to the listener when there is one |
| DeepResearch.BackgroundText | lib/agents/deep-research.ts:128 | the first step's text, `Researching <name>` with ` at <firm>` only for a truthy firm, then `...` (no contract of its own; DeepResearch.BackgroundFirmReadBack states what it carries) |
| DeepResearch.BackgroundFirmReadBack | lib/agents/deep-research.ts:128 | the text between `Researching <name>` and `...` is empty exactly when the firm is falsy, and otherwise reads back as the firm after ` at ` |
| DeepResearch.OpeningSteps | lib/agents/deep-research.ts:127-140 | the five opening steps are numbered 1-5 |
| DeepResearch.UserPromptReadBack | lib/agents/deep-research.ts:143-164 | the firm, industry and stage entries of the prompt's line list are non-empty exactly when truthy, and each reads back as its value |
| DeepResearch.CompleteMessageReadsBack | lib/agents/deep-research.ts:193 | the completion message "Found N talking points" carries N, the length of `talking_points` or 0, and `parseInt` reads it back |
| DeepResearch.UserPromptLines | lib/agents/deep-research.ts:143-164 | the research prompt as a list of 22 template lines |
| DeepResearch.Request | lib/agents/deep-research.ts:166-176 | the request: model `claude-3-5-sonnet-20241022`, 4096 tokens, the system prompt and the joined prompt lines (no contract of its own) |
| DeepResearch.PointCount | lib/agents/deep-research.ts:193 | `research.talking_points?.length \|\| 0`: the length of an array or a string, otherwise 0 (no contract of its own) |
| DeepResearch.CompleteMessage | lib/agents/deep-research.ts:193 | the text "Found N talking points" (no contract of its own; DeepResearch.CompleteMessageReadsBack states what it carries) |
| DeepResearch.PerformDeepResearch | lib/agents/deep-research.ts:126-199 | every failure is "Failed to complete investor research"; it succeeds exactly when the reply parses to something other than null; the log is the five opening steps, then "Research Complete" numbered 6 only on success; the listener saw exactly the log |
| EmailWriter.InvestmentsBlockShowsFirstThree | lib/agents/email-writer.ts:82-85 | the investments block is "No recent investments found" exactly when the list is missing or empty; otherwise its lines are the first three investments, formatted, in order |
| EmailWriter.ActivityBlockShowsFirstThree | lib/agents/email-writer.ts:87-90 | the same for recent activity, with its own fallback text |
| EmailWriter.TalkingPointsBlockShowsAll | lib/agents/email-writer.ts:92 | the talking-points block lists every talking point, or "No talking points" when there are none |
| EmailWriter.ListBlockShows | lib/agents/email-writer.ts:82-92 | a list block of one-line entries is the fallback exactly when the list is missing or empty, and otherwise splits back into one line per shown entry, in order |
| EmailWriter.ListBlockIsFallbackIff | lib/agents/email-writer.ts:82-92 | a list block (`slice`, `map`, `join`, or else the fallback text) is the fallback exactly when the list is missing or empty |
| EmailWriter.UserPromptLayout | lib/agents/email-writer.ts:66-104 | the industry, stage, raising and context entries of the prompt's line list are non-empty exactly when truthy, and each reads back; entries 17, 20 and 23 are the three blocks |
| EmailWriter.RevisionPromptReadBack | lib/agents/email-writer.ts:156-171 | a reader of the sent revision prompt text, which cuts it at the feedback and context headings, gets the previous subject, the previous body and the feedback back exactly, line breaks included, when the subject is one line, no line of the body is the feedback heading and no line of the feedback is the context heading |
| EmailWriter.RevisionPromptLines | lib/agents/email-writer.ts:156-171 | the revision prompt as a list of 16 template lines (EmailWriter.RevisionPromptReadBack states what the joined text carries) |
| EmailWriter.ListBlock | lib/agents/email-writer.ts:82-92 | a list block: the shown entries formatted and joined by line feeds, or the fallback text (no contract of its own; EmailWriter.ListBlockShows and EmailWriter.ListBlockIsFallbackIff state its properties) |
| EmailWriter.UserPromptLines | lib/agents/email-writer.ts:66-104 | the writer's prompt as a list of 35 template lines |
| EmailWriter.Request | lib/agents/email-writer.ts:107-117 | the request: model `claude-sonnet-4-5-20250929`, 2048 tokens, the system prompt and the joined prompt lines (no contract of its own) |
| EmailWriter.RevisionRequest | lib/agents/email-writer.ts:174-184 | the revision request: the same model and budget, the revision system prompt and the joined revision prompt lines (no contract of its own) |
| EmailWriter.GenerateEmail | lib/agents/email-writer.ts:119-138 | fails with "Failed to generate email with AI" exactly when the pipeline yields no value; otherwise returns the parsed value unchecked |
| EmailWriter.RegenerateEmail | lib/agents/email-writer.ts:186-200 | the same with "Failed to regenerate email with AI" |
| EmailGenerator.Header | lib/agents/email-generator.ts:88-97 | the opening of the prompt: the first line naming the investor, with ` at <firm>` only for a truthy firm, then the founder, the project, its one-liner and the fundraising context (no contract of its own; EmailGenerator.HeaderFirmReadBack states what its first line carries) |
| EmailGenerator.HeaderFirmReadBack | lib/agents/email-generator.ts:88 | reading the header's first line between `Write a fundraising cold email to <name>` and the full stop gives a text that is empty exactly when the firm is falsy, and otherwise reads back as the firm after ` at `; it holds when the name and the firm are one line each |
| EmailGenerator.Closing | lib/agents/email-generator.ts:115-139 | the fixed closing instructions, which name the investor twice (no contract of its own; EmailGenerator.BuildUserPrompt and EmailGenerator.SectionsReadBack place it after the sections) |
| EmailGenerator.UserPrompt | lib/agents/email-generator.ts:88-139 | the whole prompt: header, the present sections in order, closing (no contract of its own; EmailGenerator.BuildUserPrompt proves the `+=` build equal to it, and EmailGenerator.SectionsReadBack reads its sections back) |
| EmailGenerator.BuildUserPrompt | lib/agents/email-generator.ts:88-139 | the prompt built with `+=` is the header, then the present sections in order, then the closing |
| EmailGenerator.SectionsReadBack | lib/agents/email-generator.ts:88-139 | a reader of the prompt text between the header and the closing instructions, which cuts it at the four heading lines and accepts them only once each and in the order About, Why They're Relevant, Personal Hooks, Key Points, gets back the summary and the thesis exactly when they are truthy and the hooks and talking points exactly when the list is non-empty; it holds when the investor name is one line, no line of the summary or thesis is a heading line and every list item is one line |
| EmailGenerator.Request | lib/agents/email-generator.ts:142-152 | the request: model `claude-sonnet-4-5-20250929`, 1024 tokens, the system prompt and the assembled prompt (no contract of its own) |
| EmailGenerator.GenerateEmail | lib/agents/email-generator.ts:154-178 | every failure is "Failed to generate email with AI"; it succeeds exactly when the parsed reply has a truthy `subject` and `body`, and returns it |
| EmailGenerator.Acceptable | lib/agents/email-generator.ts:170 | the reply check: `subject` and `body` are present and truthy (no contract of its own; EmailGenerator.GenerateEmail and EmailGenerator.VerdictIgnoresOtherMembers state its properties) |
| EmailGenerator.VerdictIgnoresOtherMembers | lib/agents/email-generator.ts:170 | only `subject` and `body` decide whether a reply is accepted |
| Domain.NamesRoundTrip | types/index.ts:43-44 | every source, research status, email status and activity type reads back from its stored name |
| Domain.ParseInvestorSource | types/index.ts:43 | a parsed investor source has the name it was parsed from |
| Domain.ParseResearchStatus | types/index.ts:44 | a parsed research status has the name it was parsed from |
| Domain.ParseEmailStatus | types/index.ts:95 | a parsed email status has the name it was parsed from |
| Domain.ParseActivityKind | types/index.ts:70 | a parsed activity type has the name it was parsed from |
| Base64.DecodeEncode | lib/gmail/client.ts:91-92 | base64 decoding undoes base64 encoding |
| Base64.Encode | lib/gmail/client.ts:92 | the base64 text has 4 characters for every 3 bytes, rounded up |
| Base64.EncodeShape | lib/gmail/client.ts:92 | the base64 text is alphabet characters followed by as many `=` as the byte count needs (none, one or two) |
| Base64.EncodeUrlAlphabet | lib/gmail/client.ts:93-95 | the URL-safe text has no `+`, `/` or `=`, and is the padded text minus its padding |
| Base64.DecodeUrlEncodeUrl | lib/gmail/client.ts:90-95 | re-padding, mapping back to the standard alphabet and decoding recovers the bytes |
| Utf8.DecodeEncode | lib/gmail/client.ts:91 | UTF-8 decoding undoes the `Buffer.from(string)` encoding |
| Utf8.EncodeAscii | lib/gmail/client.ts:91 | ASCII text encodes to one byte per character |
| Gmail.ParseRawMessage | lib/gmail/client.ts:82-88 | a reader of the raw message gets the recipient, subject and body back exactly when neither header contains a line feed |
| Gmail.RawMessageLines | lib/gmail/client.ts:82-88 | the raw message's lines are the `To:` line, the `Subject:` line, the content type, an empty line, then the body's lines |
| Gmail.RawMessage | lib/gmail/client.ts:82-88 | the raw message: `To:` and `Subject:` headers, the content type, an empty line and the body, joined by a bare line feed (no contract of its own; Gmail.RawMessageLines and Gmail.ParseRawMessage state what it carries) |
| Gmail.EncodedRaw | lib/gmail/client.ts:90-95 | the `raw` field: the message's UTF-8 bytes, base64url-encoded without padding (no contract of its own; Gmail.EncodedRawRoundTrip states what it carries) |
| Gmail.EncodedRawRoundTrip | lib/gmail/client.ts:90-95 | the encoded message has no `+`, `/` or `=`; decoding it gives the message's UTF-8 bytes, and those give the message |
| Gmail.StoredRow | lib/gmail/client.ts:30-38 | the query yields the user's row exactly when it does not err and the row exists |
| Gmail.StillValid | lib/gmail/client.ts:41-44 | the stored token is used exactly while `now` is before the stored expiry, the negation of `expiresAt <= now` (no contract of its own; Gmail.GmailClient.GetValidAccessToken and Gmail.RefreshHoldsUntilExpiry state its use) |
| Gmail.Formattable | lib/gmail/client.ts:56 | `new Date(expiry_date!).toISOString()` succeeds exactly when there is an expiry within the range of a JavaScript `Date`, 8.64e15 ms either side of the epoch (no contract of its own; Gmail.GmailClient.GetValidAccessToken states the failure otherwise) |
| Gmail.RefreshedRow | lib/gmail/client.ts:53-57 | the row after a refresh has the new access token and expiry and keeps the refresh token |
| Gmail.RefreshHoldsUntilExpiry | lib/gmail/client.ts:44-58 | a refreshed row with a later expiry is used as stored until that expiry |
| Gmail.GmailClient.GetValidAccessToken | lib/gmail/client.ts:27-64 | "not connected" exactly when there is no row; a row that has not expired gives its token and changes nothing; an expired row sets its refresh token on the client; a refresh whose expiry date is missing or outside the range of a JavaScript `Date` fails before any write, as `toISOString()` throws on the invalid date; any other refresh gives the new token, and the row takes the new token and expiry when the write succeeds |
| Gmail.GmailClient.SendEmail | lib/gmail/client.ts:66-113 | every failure is "Failed to send email via Gmail"; with a token, the client's credentials become that token alone and one send request with the encoded raw message is issued; without one nothing is sent, and the credentials hold the expired row's refresh token when there was such a row, and are unchanged otherwise; the stored row changes only when a refresh with a formattable expiry date is written |
| Gmail.GmailClient.CheckGmailConnection | lib/gmail/client.ts:115-129 | true exactly when nothing throws, the query does not err and the row exists |
| Middleware.Decide | middleware.ts:5-30 | redirects to `/login` exactly for a `/dashboard` path without a session, to `/dashboard` exactly for `/login` with a session, and passes everything else through; a redirect changes only the pathname |
| Middleware.RulesExclusive | middleware.ts:14-27 | the two redirect rules never both apply |
| Middleware.NoRedirectLoop | middleware.ts:14-29 | following a redirect with the same session state is passed through |
| Middleware.RedirectTargetMatched | middleware.ts:32-34 | every redirect target is a path the middleware runs on |
| Middleware.MatchedDecision | middleware.ts:14-34 | on a matched path the request passes exactly when the session fits the page: signed in anywhere but `/login`, signed out on `/login` |
| FinderModal.SearchRefused | components/investors/InvestorFinderModal.tsx:40 | `!count || parseInt(count) < 1` (no contract of its own; FinderModal.SearchRefusedForNumbers, OfferedCountsAccepted and UnreadableCountPasses state its properties) |
| FinderModal.OrUndefined | components/investors/InvestorFinderModal.tsx:52-53 | `s || undefined`: the field is left out exactly when the text is empty, and otherwise carries the text |
| FinderModal.SearchRefusedForNumbers | components/investors/InvestorFinderModal.tsx:40-43 | a count written as an integer n is refused exactly when n < 1 |
| FinderModal.OfferedCountsAccepted | components/investors/InvestorFinderModal.tsx:40-43 | the counts the dialog offers (3, 5, 10, 15) all pass the check |
| FinderModal.UnreadableCountPasses | components/investors/InvestorFinderModal.tsx:40 | a count `parseInt` cannot read is NaN and is not refused |
| FinderModal.MarkAllSelected | components/investors/InvestorFinderModal.tsx:63 | after a search every result is selected, with its other fields unchanged |
| FinderModal.AllSelectedAfterSearch | components/investors/InvestorFinderModal.tsx:63-80 | right after a search, the selected filter keeps every result |
| FinderModal.Toggle | components/investors/InvestorFinderModal.tsx:73-77 | only the entry at the index has its flag flipped; the length and all other entries stay the same |
| FinderModal.ToggleTwice | components/investors/InvestorFinderModal.tsx:73-77 | toggling the same index twice restores the list |
| FinderModal.ToggleChangesCountByOne | components/investors/InvestorFinderModal.tsx:73-77 | a toggle changes the number of selected entries by exactly one, up or down according to the new flag |
| FinderModal.Selected | components/investors/InvestorFinderModal.tsx:80 | the filter keeps only selected entries taken from the results |
| FinderModal.SelectedMembers | components/investors/InvestorFinderModal.tsx:80 | an entry is kept by the filter exactly when it is a result and selected |
| FinderModal.AddRequests | components/investors/InvestorFinderModal.tsx:88-100 | one add request per selected investor, in order, each with source `ai_found` and that investor's name, firm, title, LinkedIn URL and Twitter URL |
| FinderModal.Modal.constructor | components/investors/InvestorFinderModal.tsx:32-37 | count "5", empty criteria, geography and results, not searching, not adding |
| FinderModal.Modal.Edit | components/investors/InvestorFinderModal.tsx:145-175 | typing into the count, criteria or geography field sets those three and changes nothing else |
| FinderModal.Modal.StartSearch | components/investors/InvestorFinderModal.tsx:39-55 | a refused count changes nothing; otherwise the dialog is searching and one request with the parsed count and the non-empty criteria and geography is sent |
| FinderModal.Modal.FinishSearch | components/investors/InvestorFinderModal.tsx:57-70 | found investors replace the results, all selected; a failure keeps the results; searching ends either way |
| FinderModal.Modal.ToggleSelection | components/investors/InvestorFinderModal.tsx:73-77 | the results become their toggle at the index; nothing else changes |
| FinderModal.Modal.StartAdd | components/investors/InvestorFinderModal.tsx:79-100 | with nothing selected nothing happens; otherwise the dialog is adding and one add request per selected investor is sent |
| FinderModal.Modal.FinishAdd | components/investors/InvestorFinderModal.tsx:109-118 | when every add succeeded the dialog asks to be closed; adding ends either way |
| FinderModal.Modal.HandleClose | components/investors/InvestorFinderModal.tsx:121-129 | nothing changes while searching or adding; otherwise results are emptied, criteria and geography cleared, count reset to "5" and the parent asked to close |
| Stats.GetStats | app/api/stats/route.ts:5-123 | 401 exactly without a user; 500 "Failed to fetch projects" exactly when the projects query fails; otherwise the two totals, each sub-count contributing 0 when it fails or when there are no ids to look for |
| Stats.InvestorTotal | app/api/stats/route.ts:40-66 | the investor total: the campaign count plus the legacy per-project count, each 0 when its query failed (no contract of its own; Stats.InvestorTotalCountsEachOnce and Stats.FailuresOnlyLower state its properties) |
| Stats.EmailsSentTotal | app/api/stats/route.ts:68-118 | the same for emails with status `sent` (no contract of its own; Stats.EmailsSentTotalCountsEachOnce and Stats.FailuresOnlyLower state its properties) |
| Stats.InvestorTotalCountsEachOnce | app/api/stats/route.ts:40-66 | with every query succeeding, the investor total is the number of investors in one of the user's campaigns or, with no campaign, in one of the user's projects, each counted once |
| Stats.EmailsSentTotalCountsEachOnce | app/api/stats/route.ts:68-118 | the same for emails with status `sent` |
| Stats.CountDisjointUnion | app/api/stats/route.ts:61 | counting two conditions that never hold together is counting their disjunction |
| Stats.FailuresOnlyLower | app/api/stats/route.ts:35-117 | a failing sub-query can only lower a total |
| Stats.NoProjectsNoTotals | app/api/stats/route.ts:25-56 | a user without projects has both totals 0, whatever else fails |
| Stats.ProjectIds | app/api/stats/route.ts:25 | the ids are exactly those of the user's projects |
| Stats.CampaignIds | app/api/stats/route.ts:29-37 | the ids are exactly those of campaigns of the given projects; no projects give no campaigns |

## Left out

- The Anthropic SDK, the Gmail API, the OAuth library and Supabase are not modelled. Their answers are parameters: the LLM call outcome, `parse`, the refresh result, the send response and the query failure flags.
- `JSON.parse` is a parameter. The `as T` casts check nothing at run time, so the agents return the parsed `Json` value as it is.
- `console.log` and `console.error` output is not modelled. This includes the debugging queries in `app/api/stats/route.ts:73-90`, whose results are only logged.
- Wall-clock time is not modelled. Deep research takes a `clock` function for step timestamps, and their ISO formatting is left out. A stored `expires_at` that is not a valid date is also left out; the model's stored expiry is always a point in time. A refreshed `expiry_date` that cannot be formatted is modelled (`Gmail.TokenError.InvalidExpiry`).
- Gmail OAuth and disconnect are not modelled: `getAuthUrl`, `getTokensFromCode` and `disconnectGmail` (`lib/gmail/client.ts:11-25` and `131-137`). They are OAuth and database plumbing with no logic of their own.
- `refreshAccessToken` also updates the OAuth client's credentials internally. That library-internal update is not modelled.
- The `credentials.access_token!` assertion is not modelled. The model's refresh result always has a token; a null token from the library is left out.
- Gmail.GmailClient.SendEmail: the returned `messageId` and `threadId` come from the response parameter as they are. The network send is not modelled.
- Stats.GetStats: the outer `catch` that answers 500 "Failed to fetch stats" is not modelled. In the model every step reports failure through a flag, and nothing throws.
- Text.IntToString, Text.ParseInt: numbers are unbounded integers, not JavaScript doubles. A template literal prints a number of magnitude 10^21 or more in exponent form (`1e+21`), and `parseInt` rounds a digit run above 2^53 to the nearest double (`parseInt("9007199254740993")` is 9007199254740992). Neither is modelled, so `Text.ParseIntOfIntToString` and `Text.ParseIntOfIntToStringThen` hold for every integer here, while in JavaScript they hold only for integers of magnitude up to 2^53. The numbers the modelled code prints or parses are investor counts and list lengths, far below these limits.
- String lengths, `slice` and `length` are taken over characters. JavaScript counts UTF-16 code units, so the two differ for characters outside the Basic Multilingual Plane.
- JSON values that are not strings (numbers, objects) are not modelled inside prompt templates. The model types those input fields as strings.
- DeepResearch.PerformDeepResearch: a progress listener that throws is not modelled. The model's listener is the log of steps it receives, and it cannot fail. In the source, `onProgress(step)` runs inside `addStep` and within the `try` (`lib/agents/deep-research.ts:121-123`, `126`). A listener that throws would end the research with "Failed to complete investor research" after that step was pushed, and no later step would be added.
- DeepResearch.ResearchLog.AddStep: for the same reason, its contract does not cover a listener that throws after the step is appended.
- InvestorFinder.FindInvestors: `count` is an integer in the model. In the source it is a JavaScript `number`, and the dialog passes `parseInt(count)` without a further check. A fractional count would print as itself in the prompt (`2.5`) while `slice(0, 2.5)` keeps 2 entries. A NaN count would print as `NaN` while `slice(0, NaN)` keeps none. The dialog's own choices are whole numbers. A count it lets through unread (`FinderModal.UnreadableCountPasses`) is NaN, which the search request body carries as `null` (`FinderModal.SearchRequest` has `count: None`). The API route that hands that body to `findInvestors` is not part of this model.
- DeepResearch.CompleteMessage counts `talking_points` only when it is an array or a string. An object with a numeric `length` property is counted as 0, whereas JavaScript would print that property.
- The dialog's toasts, `window.location.reload`, the error detail text of a failed search, and the interleaving of the concurrent `Promise.all` requests are not modelled. The model records which requests are issued, in order.
- The middleware's cookie refresh done by the Supabase middleware client is not modelled, nor the case of `getSession` failing. A session is a flag.
- The system prompts are kept as constants, and the quality rules they ask the model to follow are not checked.
