/**
 * Template-literal building blocks shared by the agents' prompts. A template
 * whose lines hold `${x ? `Label: ${x}` : ''}` keeps the line even when `x` is
 * falsy (it is then empty), so a prompt is a fixed list of lines joined by
 * "\n", in which each optional line sits at a fixed position.
 */
module Prompt {
  import opened Wrappers
  import opened Text

  /** JavaScript truthiness of an optional string input: present and non-empty. */
  predicate Given(o: Option<string>)
  {
    o.Some? && o.value != ""
  }

  /** The value a reader of the prompt can see: a falsy input shows as absent. */
  function Present(o: Option<string>): Option<string>
  {
    if Given(o) then o else None
  }

  /** `${o ? `<tag>${o}` : ''}` */
  function OptionalLine(tag: string, o: Option<string>): string
  {
    if Given(o) then tag + o.value else ""
  }

  /** Reading a labelled line back: the text after `tag`, if the line carries it. */
  function ReadLine(line: string, tag: string): Option<string>
  {
    if StartsWith(line, tag) then Some(line[|tag|..]) else None
  }

  /** The text between a known lead and a known close, when the text starts and ends with them. */
  function Between(text: string, lead: string, close: string): (r: Option<string>)
    ensures r.Some? ==> lead + r.value + close == text
  {
    if |lead| + |close| <= |text| && text[..|lead|] == lead && text[|text| - |close|..] == close
    then Some(text[|lead|..|text| - |close|])
    else None
  }

  /**
   * An optional piece written between a fixed lead and a fixed close reads
   * back: the text between them is empty exactly when the value is falsy, and
   * otherwise carries the value after its tag.
   */
  lemma OptionalBetween(lead: string, tag: string, o: Option<string>, close: string)
    requires tag != ""
    ensures var part := Between(lead + OptionalLine(tag, o) + close, lead, close);
      part.Some? && (part.value == "" <==> !Given(o)) && ReadLine(part.value, tag) == Present(o)
  {
    var middle := OptionalLine(tag, o);
    var text := lead + middle + close;
    assert text[..|lead|] == lead;
    assert text[|text| - |close|..] == close;
    assert text[|lead|..|text| - |close|] == middle;
    ReadOptionalLine(tag, o);
  }

  /** A labelled line reads back exactly the value written after the label. */
  lemma ReadLineOfLabelled(tag: string, v: string)
    ensures ReadLine(tag + v, tag) == Some(v)
  {
    assert (tag + v)[|tag|..] == v;
  }

  /** An optional line is non-empty exactly when its input is truthy, and then reads back that input. */
  lemma ReadOptionalLine(tag: string, o: Option<string>)
    requires tag != ""
    ensures OptionalLine(tag, o) != "" <==> Given(o)
    ensures ReadLine(OptionalLine(tag, o), tag) == Present(o)
  {
    if Given(o) {
      ReadLineOfLabelled(tag, o.value);
    }
  }

  /** Where the second and fourth of five consecutive blocks of lines sit in the whole. */
  lemma BlocksAt<T>(r: seq<T>, a: seq<T>, b: seq<T>, c: seq<T>, d: seq<T>, e: seq<T>)
    requires r == a + b + c + d + e
    ensures r[|a|..|a| + |b|] == b
    ensures r[|a| + |b| + |c|..|a| + |b| + |c| + |d|] == d
  {
    assert r == a + b + c + d + e;
  }

  /** A prompt made of lines. */
  function Lines(lines: seq<string>): string
  {
    Join(lines, "\n")
  }

  /** The lines of a prompt made of two runs of lines are the lines of each run. */
  lemma SplitLinesAppend(a: seq<string>, b: seq<string>)
    requires a != [] && b != []
    ensures Split(Lines(a + b), '\n') == Split(Lines(a), '\n') + Split(Lines(b), '\n')
  {
    JoinAppend(a, b, "\n");
    SplitAppend(Lines(a), Lines(b), '\n');
  }

  /** `items.map(x => `- ${x}`).join('\n')` */
  function BulletBlock(items: seq<string>): string
  {
    Lines(BulletLines(items))
  }

  /** A bullet block of one-line items splits back into its bullets, and they read back to the items. */
  lemma BulletBlockReadBack(items: seq<string>)
    requires items != []
    requires forall i :: 0 <= i < |items| ==> '\n' !in items[i]
    ensures Split(BulletBlock(items), '\n') == BulletLines(items)
    ensures Unbullet(Split(BulletBlock(items), '\n')) == Some(items)
  {
    var lines := BulletLines(items);
    forall i | 0 <= i < |lines| ensures '\n' !in lines[i] {
      assert lines[i] == "- " + items[i];
    }
    SplitJoin(lines, '\n');
    UnbulletBulletLines(items);
  }
  /** The first line at or after `from` that `stop` accepts, or the end of the lines. */
  function NextLine(lines: seq<string>, from: nat, stop: string -> bool): (j: nat)
    requires from <= |lines|
    ensures from <= j <= |lines|
    ensures j < |lines| ==> stop(lines[j])
    ensures forall k :: from <= k < j ==> !stop(lines[k])
    decreases |lines| - from
  {
    if from == |lines| || stop(lines[from]) then from else NextLine(lines, from + 1, stop)
  }

  /** No line of `text` is one that `heading` accepts. */
  predicate NoLineIs(text: string, heading: string -> bool)
  {
    forall line <- Split(text, '\n') :: !heading(line)
  }

  /** A section as the source appends it to a prompt: a heading line and a text, each on lines of their own. */
  function Section(heading: string, text: string): string
  {
    "\n" + heading + "\n" + text + "\n"
  }

  /** Sections one after another; each is a (heading, text) pair. */
  function SectionsText(sections: seq<(string, string)>): string
    decreases |sections|
  {
    if sections == [] then "" else Section(sections[0].0, sections[0].1) + SectionsText(sections[1..])
  }

  /** The text of two runs of sections is the text of each run. */
  lemma {:induction false} SectionsTextAppend(a: seq<(string, string)>, b: seq<(string, string)>)
    ensures SectionsText(a + b) == SectionsText(a) + SectionsText(b)
    decreases |a|
  {
    if a != [] {
      var ab := a + b;
      assert ab != [] && ab[0] == a[0] && ab[1..] == a[1..] + b;
      var x := Section(a[0].0, a[0].1);
      assert SectionsText(ab) == x + SectionsText(a[1..] + b);
      SectionsTextAppend(a[1..], b);
      assert SectionsText(a) == x + SectionsText(a[1..]);
      assert x + (SectionsText(a[1..]) + SectionsText(b)) == x + SectionsText(a[1..]) + SectionsText(b);
    } else {
      assert a + b == b;
    }
  }

  /**
   * Reading sections back out of the lines of a text: each starts with a blank
   * line and a heading line, and its text runs up to the blank line before the
   * next heading line, or before the end.
   */
  function ReadSectionLines(lines: seq<string>, heading: string -> bool): Option<seq<(string, seq<string>)>>
    decreases |lines|
  {
    if lines == [""] then Some([])
    else if |lines| < 2 || lines[0] != "" || !heading(lines[1]) then None
    else
      var j := NextLine(lines, 2, heading);
      if j < 3 then None
      else match ReadSectionLines(lines[j - 1..], heading)
        case None => None
        case Some(rest) => Some([(lines[1], lines[2..j - 1])] + rest)
  }

  /** Each section with its text cut into lines. */
  function SectionsSplit(sections: seq<(string, string)>): (r: seq<(string, seq<string>)>)
    ensures |r| == |sections|
    ensures forall i :: 0 <= i < |r| ==> r[i] == (sections[i].0, Split(sections[i].1, '\n'))
  {
    seq(|sections|, i requires 0 <= i < |sections| => (sections[i].0, Split(sections[i].1, '\n')))
  }

  /** The lines of SectionsText: a blank line, then per section its heading, its text's lines and a blank line. */
  function SectionLines(sections: seq<(string, string)>): (r: seq<string>)
    ensures |r| >= 1 && r[0] == ""
    decreases |sections|
  {
    if sections == [] then [""] else ["", sections[0].0] + Split(sections[0].1, '\n') + SectionLines(sections[1..])
  }

  /**
   * Sections whose headings are one-line heading lines and whose texts hold no
   * heading line read back from the text they make: every heading, and every
   * text cut into its lines, in order.
   */
  lemma ReadSectionsText(sections: seq<(string, string)>, heading: string -> bool)
    requires !heading("")
    requires forall s <- sections :: heading(s.0) && '\n' !in s.0 && NoLineIs(s.1, heading)
    ensures ReadSectionLines(Split(SectionsText(sections), '\n'), heading) == Some(SectionsSplit(sections))
  {
    SplitSectionsText(sections);
    ReadSectionLinesOf(sections, heading);
  }

  lemma {:induction false} SplitSectionsText(sections: seq<(string, string)>)
    requires forall s <- sections :: '\n' !in s.0
    ensures Split(SectionsText(sections), '\n') == SectionLines(sections)
    decreases |sections|
  {
    if sections != [] {
      SplitSectionsText(sections[1..]);
      SplitSection(sections[0].0, sections[0].1, SectionsText(sections[1..]));
    }
  }

  /** One section in front of more text: a blank line, its heading line, its text's lines, then the rest's lines. */
  lemma SplitSection(heading: string, text: string, rest: string)
    requires '\n' !in heading
    ensures Split(Section(heading, text) + rest, '\n') == ["", heading] + Split(text, '\n') + Split(rest, '\n')
  {
    var tail := text + "\n" + rest;
    var after := heading + "\n" + tail;
    var whole := Section(heading, text) + rest;
    var x, y := Split(text, '\n'), Split(rest, '\n');
    SectionThen(heading, text, rest);
    SplitAppend("", after, '\n');
    assert Split("", '\n') == [""];
    assert Split(whole, '\n') == [""] + Split(after, '\n');
    SplitAtFirst(after, heading, tail, '\n');
    SplitAppend(text, rest, '\n');
    assert Split(after, '\n') == [heading] + (x + y);
    ThreeParts([""], heading, x, y);
    assert [""] + [heading] == ["", heading];
  }

  lemma SectionThen(heading: string, text: string, rest: string)
    ensures Section(heading, text) + rest == "" + "\n" + (heading + "\n" + (text + "\n" + rest))
  {
  }

  lemma ThreeParts<T>(first: seq<T>, second: T, x: seq<T>, y: seq<T>)
    ensures first + ([second] + (x + y)) == first + [second] + x + y
  {
  }

  lemma {:induction false} ReadSectionLinesOf(sections: seq<(string, string)>, heading: string -> bool)
    requires !heading("")
    requires forall s <- sections :: heading(s.0) && NoLineIs(s.1, heading)
    ensures ReadSectionLines(SectionLines(sections), heading) == Some(SectionsSplit(sections))
    decreases |sections|
  {
    if sections != [] {
      var tail := sections[1..];
      assert forall s <- tail :: heading(s.0) && NoLineIs(s.1, heading) by {
        forall s <- tail ensures heading(s.0) && NoLineIs(s.1, heading) {
          assert s in sections;
        }
      }
      ReadSectionLinesOf(tail, heading);
      SectionLinesNext(tail, heading);
      ReadSectionCons(sections[0].0, sections[0].1, SectionLines(tail), heading, SectionsSplit(tail));
      SectionsCons(sections);
    }
  }

  /** The lines and the read-back of sections, one section at a time. */
  lemma SectionsCons(sections: seq<(string, string)>)
    requires sections != []
    ensures SectionLines(sections) == ["", sections[0].0] + Split(sections[0].1, '\n') + SectionLines(sections[1..])
    ensures SectionsSplit(sections) == [(sections[0].0, Split(sections[0].1, '\n'))] + SectionsSplit(sections[1..])
  {
  }

  /** The reader takes one section off the front of lines it accepts. */
  lemma ReadSectionCons(h: string, text: string, after: seq<string>, heading: string -> bool,
                        rest: seq<(string, seq<string>)>)
    requires !heading("") && heading(h) && NoLineIs(text, heading)
    requires |after| >= 1 && after[0] == "" && (after == [""] || heading(after[1]))
    requires ReadSectionLines(after, heading) == Some(rest)
    ensures ReadSectionLines(["", h] + Split(text, '\n') + after, heading) == Some([(h, Split(text, '\n'))] + rest)
  {
    var body := Split(text, '\n');
    var lines := ["", h] + body + after;
    NextSectionAt(lines, h, body, after, heading);
    ReadSectionStep(lines, h, body, after, heading, rest);
  }

  /** The lines of sections are one blank line, or start with a blank line and the first heading. */
  lemma SectionLinesNext(sections: seq<(string, string)>, heading: string -> bool)
    requires forall s <- sections :: heading(s.0)
    ensures SectionLines(sections) == [""] || heading(SectionLines(sections)[1])
  {
    if sections != [] {
      assert SectionLines(sections)[1] == sections[0].0;
    }
  }

  /** One step of the reader: a blank line, a heading line, its body, then lines the reader accepts. */
  lemma ReadSectionStep(lines: seq<string>, h: string, body: seq<string>, after: seq<string>,
                        heading: string -> bool, rest: seq<(string, seq<string>)>)
    requires |lines| >= 3 && lines[0] == "" && lines[1] == h && heading(h)
    requires NextLine(lines, 2, heading) == 3 + |body|
    requires lines[2..2 + |body|] == body && lines[2 + |body|..] == after
    requires ReadSectionLines(after, heading) == Some(rest)
    ensures ReadSectionLines(lines, heading) == Some([(h, body)] + rest)
  {
  }

  /** In the lines of a section followed by more sections, the next heading line comes right after this section's blank line. */
  lemma NextSectionAt(lines: seq<string>, h: string, body: seq<string>, after: seq<string>, heading: string -> bool)
    requires lines == ["", h] + body + after
    requires forall line <- body :: !heading(line)
    requires !heading("") && |after| >= 1 && after[0] == ""
    requires after == [""] || heading(after[1])
    ensures NextLine(lines, 2, heading) == 3 + |body|
    ensures lines[2..2 + |body|] == body && lines[2 + |body|..] == after
  {
    var end := 3 + |body|;
    forall k | 2 <= k < end ensures !heading(lines[k]) {
      if k < end - 1 {
        assert lines[k] == body[k - 2];
      } else {
        assert lines[k] == after[0];
      }
    }
    assert end < |lines| ==> lines[end] == after[1];
    NextLineAt(lines, 2, end, heading);
  }

  /** The first accepted line is the one that is accepted with none accepted before it. */
  lemma NextLineAt(lines: seq<string>, from: nat, at: nat, stop: string -> bool)
    requires from <= at <= |lines|
    requires forall k :: from <= k < at ==> !stop(lines[k])
    requires at < |lines| ==> stop(lines[at])
    ensures NextLine(lines, from, stop) == at
  {
    var j := NextLine(lines, from, stop);
    assert j >= at;
  }
}
