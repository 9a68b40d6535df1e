/**
 * The reply post-processing every agent applies to the model's answer before
 * `JSON.parse`: take the first content block, require it to be text, trim it,
 * and only when the trimmed text starts with a markdown fence remove every
 * "```json" marker and then every "```" marker, each with at most one newline
 * after it (the two global regular-expression replacements of the source).
 */
module LlmReply {
  import opened Wrappers
  import opened Text
  import opened Json

  const Fence: string := "```"
  const JsonFence: string := "```json"

  /** A content block of the model's reply: text, or any other kind (tool use, ...). */
  datatype ContentBlock = TextBlock(text: string) | OtherBlock

  /** The messages API request an agent sends: model, token budget, system prompt and the one user message. */
  datatype MessageRequest = MessageRequest(model: string, maxTokens: nat, system: string, user: string)

  /** What the messages API call gave back: a reply, or a thrown error (network, quota, ...). */
  datatype ApiOutcome = ApiError | Reply(content: seq<ContentBlock>)

  /** A fence starts at position `i` of `s`. */
  predicate FenceAt(s: string, i: int)
  {
    0 <= i && i + 3 <= |s| && s[i] == '`' && s[i + 1] == '`' && s[i + 2] == '`'
  }

  predicate NoFence(s: string)
  {
    forall i :: 0 <= i < |s| ==> !FenceAt(s, i)
  }

  /**
   * `s.replace(/<marker>\n?/g, '')`: scanning left to right, each occurrence of
   * `marker` (together with one newline right after it, if there is one) is
   * deleted, and scanning resumes after the deleted text.
   */
  function RemoveMarkers(s: string, marker: string): (r: string)
    requires |marker| > 0
    ensures |r| <= |s|
    decreases |s|
  {
    if StartsWith(s, marker) then
      var rest := s[|marker|..];
      RemoveMarkers(if rest != [] && rest[0] == '\n' then rest[1..] else rest, marker)
    else if s == [] then []
    else [s[0]] + RemoveMarkers(s[1..], marker)
  }

  /** The fence strip: first every "```json" marker, then every "```" marker. */
  function StripFences(s: string): string
  {
    RemoveMarkers(RemoveMarkers(s, JsonFence), Fence)
  }

  /**
   * The text handed to `JSON.parse`: the trimmed reply, with fences stripped only
   * when it starts with one. A fence later in an unfenced reply is left alone;
   * after a strip no fence is left at all.
   */
  function ExtractJson(reply: string): (r: string)
    ensures !StartsWith(Trim(reply), Fence) ==> r == Trim(reply)
    ensures StartsWith(Trim(reply), Fence) ==> NoFence(r)
  {
    var t := Trim(reply);
    if StartsWith(t, Fence) then
      NoFenceAfterStrip(t);
      StripFences(t)
    else t
  }

  /** The text of the first content block, when there is one and it is text. */
  function ReplyText(outcome: ApiOutcome): Option<string>
  {
    match outcome
    case ApiError => None
    case Reply(content) =>
      if content == [] then None  // reading `.type` of `content[0]` throws
      else if content[0].TextBlock? then Some(content[0].text)
      else None
  }

  /**
   * The shared pipeline up to and including `JSON.parse`: None when the call
   * failed, the first block is missing or not text, or the parser rejects the
   * extracted text.
   */
  function ParsedReply(outcome: ApiOutcome, parse: string -> Option<Json>): (r: Option<Json>)
    ensures r.Some? ==> ReplyText(outcome).Some? && r == parse(ExtractJson(ReplyText(outcome).value))
    ensures ReplyText(outcome).None? ==> r.None?
  {
    match ReplyText(outcome)
    case None => None
    case Some(text) => parse(ExtractJson(text))
  }

  // ---------------------------------------------------------------------------
  // No fence survives the strip.

  /** If what is left after removing fences starts with a backtick, so did the input. */
  lemma HeadBacktick(t: string)
    requires var r := RemoveMarkers(t, Fence); r != [] && r[0] == '`'
    ensures t != [] && t[0] == '`'
  {
  }

  /** If what is left after removing fences starts with two backticks, so did the input. */
  lemma HeadTwoBackticks(t: string)
    ensures var r := RemoveMarkers(t, Fence);
      (|r| >= 2 && r[0] == '`' && r[1] == '`') ==> (|t| >= 2 && t[0] == '`' && t[1] == '`')
  {
    var r := RemoveMarkers(t, Fence);
    if !StartsWith(t, Fence) && |r| >= 2 && r[0] == '`' && r[1] == '`' {
      assert r == [t[0]] + RemoveMarkers(t[1..], Fence);
      HeadBacktick(t[1..]);
    }
  }

  /** After the "```" pass, the text contains no "```" at all. */
  lemma {:induction false} NoFenceAfterRemove(s: string)
    ensures NoFence(RemoveMarkers(s, Fence))
    decreases |s|
  {
    if StartsWith(s, Fence) {
      var rest := s[|Fence|..];
      NoFenceAfterRemove(if rest != [] && rest[0] == '\n' then rest[1..] else rest);
    } else if s != [] {
      var tail := RemoveMarkers(s[1..], Fence);
      var r := RemoveMarkers(s, Fence);
      assert r == [s[0]] + tail;
      NoFenceAfterRemove(s[1..]);
      forall i | 0 < i < |r| ensures !FenceAt(r, i) {
        assert !FenceAt(tail, i - 1);
      }
      HeadTwoBackticks(s[1..]);
      assert !FenceAt(r, 0);
    }
  }

  lemma NoFenceAfterStrip(s: string)
    ensures NoFence(StripFences(s))
  {
    NoFenceAfterRemove(RemoveMarkers(s, JsonFence));
  }

  // ---------------------------------------------------------------------------
  // The strip changes nothing in text that has no fence, so it is idempotent.

  lemma {:induction false} RemoveMarkersWithoutFence(s: string, marker: string)
    requires StartsWith(marker, Fence)
    requires NoFence(s)
    ensures RemoveMarkers(s, marker) == s
    decreases |s|
  {
    if StartsWith(s, marker) {
      assert FenceAt(s, 0);
    } else if s != [] {
      forall i ensures !FenceAt(s[1..], i) {
        if FenceAt(s[1..], i) { assert FenceAt(s, i + 1); }
      }
      RemoveMarkersWithoutFence(s[1..], marker);
    }
  }

  lemma StripFencesWithoutFence(s: string)
    requires NoFence(s)
    ensures StripFences(s) == s
  {
    RemoveMarkersWithoutFence(s, JsonFence);
    RemoveMarkersWithoutFence(s, Fence);
  }

  lemma StripFencesIdempotent(s: string)
    ensures StripFences(StripFences(s)) == StripFences(s)
  {
    NoFenceAfterStrip(s);
    StripFencesWithoutFence(StripFences(s));
  }

  // ---------------------------------------------------------------------------
  // The strip only deletes: what remains is the input with some backticks,
  // newlines and the letters of "json" taken out, in the original order.

  /** `a` can be obtained from `b` by deleting characters. */
  predicate IsSubsequence(a: string, b: string)
    decreases |b|
  {
    a == [] || (b != [] && ((a[0] == b[0] && IsSubsequence(a[1..], b[1..])) || IsSubsequence(a, b[1..])))
  }

  lemma {:induction false} SubsequenceOfSuffix(a: string, b: string, k: nat)
    requires k <= |b| && IsSubsequence(a, b[k..])
    ensures IsSubsequence(a, b)
    decreases k
  {
    if k > 0 {
      assert b[k..] == b[1..][k - 1..];
      SubsequenceOfSuffix(a, b[1..], k - 1);
    }
  }

  lemma {:induction false} SubsequenceTransitive(a: string, b: string, c: string)
    requires IsSubsequence(a, b) && IsSubsequence(b, c)
    ensures IsSubsequence(a, c)
    decreases |c|
  {
    if a != [] {
      if IsSubsequence(b, c[1..]) {
        SubsequenceTransitive(a, b, c[1..]);
      } else if a[0] == b[0] && IsSubsequence(a[1..], b[1..]) {
        SubsequenceTransitive(a[1..], b[1..], c[1..]);
      } else {
        SubsequenceTransitive(a, b[1..], c[1..]);
      }
    }
  }

  lemma {:induction false} RemoveMarkersDeletesOnly(s: string, marker: string)
    requires |marker| > 0
    ensures IsSubsequence(RemoveMarkers(s, marker), s)
    ensures forall c :: c !in marker && c != '\n' ==> multiset(RemoveMarkers(s, marker))[c] == multiset(s)[c]
    decreases |s|
  {
    if StartsWith(s, marker) {
      var rest := s[|marker|..];
      var next := if rest != [] && rest[0] == '\n' then rest[1..] else rest;
      var k := if rest != [] && rest[0] == '\n' then |marker| + 1 else |marker|;
      assert next == s[k..];
      RemoveMarkersDeletesOnly(next, marker);
      SubsequenceOfSuffix(RemoveMarkers(s, marker), s, k);
      assert s == marker + rest;
      assert rest != [] && rest[0] == '\n' ==> rest == ['\n'] + next;
    } else if s != [] {
      RemoveMarkersDeletesOnly(s[1..], marker);
      assert s == [s[0]] + s[1..];
    }
  }

  /** Stripping fences keeps every character other than backticks, newlines and the letters of "json", in order. */
  lemma StripFencesDeletesOnlyMarkers(s: string)
    ensures IsSubsequence(StripFences(s), s)
    ensures forall c :: c !in "`json\n" ==> multiset(StripFences(s))[c] == multiset(s)[c]
  {
    var once := RemoveMarkers(s, JsonFence);
    RemoveMarkersDeletesOnly(s, JsonFence);
    RemoveMarkersDeletesOnly(once, Fence);
    SubsequenceTransitive(StripFences(s), once, s);
  }
}
