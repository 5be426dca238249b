/**
 * Block elements (sections, lists, quotes, preformatted runs) and the
 * rendering of a whole rich-text block into mrkdwn.
 */
module Blocks {
  import opened Options
  import opened Strings
  import opened Inlines

  /** A section: a run of inline elements. */
  datatype Section = Section(elements: seq<Inline>)

  /**
   * One block element, by its `type` tag; `UnknownBlock` stands for every
   * other tag. A list's `indent` may be absent, which counts as 0.
   */
  datatype Block =
    | RichTextList(indent: Option<nat>, sections: seq<Section>)
    | RichTextPreformatted(elements: seq<Inline>)
    | RichTextQuote(elements: seq<Inline>)
    | RichTextSection(elements: seq<Inline>)
    | UnknownBlock

  /** The whole rich-text block: its block elements in document order. */
  datatype RichTextBlock = RichTextBlock(elements: seq<Block>)

  // ---------------------------------------------------------------- quotes

  /** `("> " + text).split("\n").join("\n> ")`. */
  function QuoteMrkdwn(text: string): string
  {
    Join(SplitLines("> " + text), "\n> ")
  }

  /** Drops the `"> "` that follows each newline (the inverse of the newline replacement). */
  function Unprefix(q: string): string
  {
    if q == [] then ""
    else if |q| >= 3 && q[..3] == "\n> " then "\n" + Unprefix(q[3..])
    else [q[0]] + Unprefix(q[1..])
  }

  /** Drops the leading `"> "` and the one after each newline. */
  function Unquote(q: string): string
  {
    if |q| >= 2 && q[..2] == "> " then Unprefix(q[2..]) else q
  }

  /** Quoting puts `"> "` in front and after every newline, and changes nothing else. */
  lemma QuoteIsPrefixing(text: string)
    ensures QuoteMrkdwn(text) == "> " + ReplaceNewlines(text, "\n> ")
  {
    JoinSplitLines("> " + text, "\n> ");
    ReplaceNewlinesConcat("> ", text, "\n> ");
  }

  lemma {:induction false} UnprefixReplaced(t: string)
    ensures Unprefix(ReplaceNewlines(t, "\n> ")) == t
  {
    if t != [] {
      var q := ReplaceNewlines(t, "\n> ");
      var rest := ReplaceNewlines(t[1..], "\n> ");
      UnprefixReplaced(t[1..]);
      if t[0] == '\n' {
        assert q == "\n> " + rest;
        assert q[..3] == "\n> " && q[3..] == rest;
      } else {
        assert q == [t[0]] + rest;
        assert q[1..] == rest;
        assert t == [t[0]] + t[1..];
      }
    }
  }

  /** Every newline in `q` is followed by `"> "`. */
  predicate NewlinesMarked(q: string)
  {
    forall i :: 0 <= i < |q| && q[i] == '\n' ==> i + 3 <= |q| && q[i + 1..i + 3] == "> "
  }

  lemma {:induction false} NewlinesFollowedByMarker(t: string)
    ensures NewlinesMarked(ReplaceNewlines(t, "\n> "))
  {
    if t != [] {
      var q := ReplaceNewlines(t, "\n> ");
      var rest := ReplaceNewlines(t[1..], "\n> ");
      NewlinesFollowedByMarker(t[1..]);
      var head := if t[0] == '\n' then "\n> " else [t[0]];
      assert q == head + rest;
      forall i | 0 <= i < |q| && q[i] == '\n'
        ensures i + 3 <= |q| && q[i + 1..i + 3] == "> "
      {
        if i >= |head| {
          var j := i - |head|;
          assert rest[j] == q[i] == '\n';
          assert j + 3 <= |rest| && rest[j + 1..j + 3] == "> ";
          assert q[i + 1..i + 3] == rest[j + 1..j + 3];
        } else {
          assert q[i] == head[i];
          assert head == "\n> " && i == 0;
        }
      }
    }
  }

  /**
   * A quote starts with `"> "`, every newline in it is followed by `"> "`, it
   * has as many newlines as the quoted text, and removing those markers gives
   * the quoted text back.
   */
  lemma QuoteShape(text: string)
    ensures var q := QuoteMrkdwn(text);
      && |q| >= 2 && q[..2] == "> "
      && NewlinesMarked(q)
      && Count(q, '\n') == Count(text, '\n')
      && Unquote(q) == text
  {
    var q := QuoteMrkdwn(text);
    var body := ReplaceNewlines(text, "\n> ");
    QuoteIsPrefixing(text);
    assert q[2..] == body;
    NewlinesFollowedByMarker(text);
    forall i | 0 <= i < |q| && q[i] == '\n'
      ensures i + 3 <= |q| && q[i + 1..i + 3] == "> "
    {
      assert i >= 2 && q[i] == body[i - 2];
      assert q[i + 1..i + 3] == body[i - 1..i + 1];
    }
    assert Count("\n> ", '\n') == 1;
    ReplaceNewlinesCount(text, "\n> ");
    CountConcat("> ", body, '\n');
    UnprefixReplaced(text);
  }

  // ---------------------------------------------------------------- lists

  /** The list bullet, exactly as the source text spells it (three characters). */
  const BULLET: string := "\U{E2}\U{20AC}\U{A2}"

  /** `"    ".repeat(level)`: four spaces per indentation level. */
  function Indentation(level: nat): (r: string)
    ensures |r| == 4 * level
    ensures forall i :: 0 <= i < |r| ==> r[i] == ' '
  {
    if level == 0 then "" else "    " + Indentation(level - 1)
  }

  /** `element.indent ?? 0`. */
  function IndentLevel(indent: Option<nat>): nat
  {
    match indent
    case None => 0
    case Some(level) => level
  }

  /** `richTextSectionToMrkdwn`: the section's inline elements rendered one after the other. */
  function RenderSection(s: Section): string
  {
    RenderInlines(s.elements)
  }

  /** What precedes a section's rendering on its list line. */
  function LinePrefix(level: nat): string
  {
    Indentation(level) + " " + BULLET + " "
  }

  /** One list line: indentation, bullet, the section, a newline. */
  function ListLine(level: nat, s: Section): string
  {
    LinePrefix(level) + RenderSection(s) + "\n"
  }

  /** The list's lines, one per section, in order. */
  function ListLines(level: nat, sections: seq<Section>): (lines: seq<string>)
    ensures |lines| == |sections|
  {
    seq(|sections|, i requires 0 <= i < |sections| => ListLine(level, sections[i]))
  }

  /** The list rendered at the given indentation level: its lines one after the other. */
  function RenderList(level: nat, sections: seq<Section>): string
  {
    Concat(ListLines(level, sections))
  }

  /** `richTextListToMrkdwn`: appends one line per section to an accumulator. */
  method RenderListLoop(indent: Option<nat>, sections: seq<Section>) returns (mrkdwn: string)
    ensures mrkdwn == RenderList(IndentLevel(indent), sections)
  {
    var level := IndentLevel(indent);
    mrkdwn := "";
    for i := 0 to |sections|
      invariant mrkdwn == RenderList(level, sections[..i])
    {
      assert ListLines(level, sections[..i + 1]) == ListLines(level, sections[..i]) + [ListLine(level, sections[i])];
      ConcatAppend(ListLines(level, sections[..i]), [ListLine(level, sections[i])]);
      mrkdwn := mrkdwn + ListLine(level, sections[i]);
    }
    assert sections[..|sections|] == sections;
  }

  /** Rendering a list of `xs + ys` renders `xs`, then `ys`. */
  lemma RenderListAppend(level: nat, xs: seq<Section>, ys: seq<Section>)
    ensures RenderList(level, xs + ys) == RenderList(level, xs) + RenderList(level, ys)
  {
    assert ListLines(level, xs + ys) == ListLines(level, xs) + ListLines(level, ys);
    ConcatAppend(ListLines(level, xs), ListLines(level, ys));
  }

  lemma NoNewlineInPrefix(level: nat)
    ensures '\n' !in LinePrefix(level)
  {
    var p := LinePrefix(level);
    forall i | 0 <= i < |p| ensures p[i] != '\n' {
      if i < 4 * level {
        assert p[i] == Indentation(level)[i];
      }
    }
  }

  /**
   * The section renderings concatenated with no decoration: what the list
   * holds besides indentation, bullets and line ends.
   */
  function SectionsText(sections: seq<Section>): string
  {
    Concat(seq(|sections|, i requires 0 <= i < |sections| => RenderSection(sections[i])))
  }

  /** A list adds exactly one newline per section to those its sections render. */
  lemma {:induction false} ListNewlines(level: nat, sections: seq<Section>)
    ensures Count(RenderList(level, sections), '\n') == |sections| + Count(SectionsText(sections), '\n')
  {
    if sections != [] {
      var first, rest := sections[0], sections[1..];
      assert sections == [first] + rest;
      RenderListAppend(level, [first], rest);
      assert ListLines(level, [first]) == [ListLine(level, first)];
      var texts := seq(|sections|, i requires 0 <= i < |sections| => RenderSection(sections[i]));
      var restTexts := seq(|rest|, i requires 0 <= i < |rest| => RenderSection(rest[i]));
      assert texts == [RenderSection(first)] + restTexts;
      ConcatAppend([RenderSection(first)], restTexts);
      ListNewlines(level, rest);
      NoNewlineInPrefix(level);
      CountConcat(LinePrefix(level) + RenderSection(first), "\n", '\n');
      CountConcat(LinePrefix(level), RenderSection(first), '\n');
      CountConcat(ListLine(level, first), RenderList(level, rest), '\n');
      CountConcat(RenderSection(first), SectionsText(rest), '\n');
    }
  }

  /**
   * When no section renders a newline, splitting the list on newlines gives
   * line k = prefix + section k for every section, then an empty last piece.
   */
  lemma {:induction false} ListLinesSplit(level: nat, sections: seq<Section>)
    requires forall k :: 0 <= k < |sections| ==> '\n' !in RenderSection(sections[k])
    ensures SplitLines(RenderList(level, sections))
         == seq(|sections|, k requires 0 <= k < |sections| => LinePrefix(level) + RenderSection(sections[k])) + [""]
  {
    if sections == [] {
      assert RenderList(level, sections) == "";
    } else {
      var first, rest := sections[0], sections[1..];
      assert sections == [first] + rest;
      RenderListAppend(level, [first], rest);
      assert ListLines(level, [first]) == [ListLine(level, first)];
      ListLinesSplit(level, rest);
      NoNewlineInPrefix(level);
      SplitLinesAfterLine(LinePrefix(level) + RenderSection(first), RenderList(level, rest));
    }
  }

  // ---------------------------------------------------------------- blocks

  /** `richTextBlockElementToMrkdwn`. */
  function RenderBlock(b: Block): string
  {
    match b
    case RichTextList(indent, sections) => RenderList(IndentLevel(indent), sections)
    case RichTextPreformatted(elements) => "```" + RenderInlines(elements) + "```"
    case RichTextQuote(elements) => QuoteMrkdwn(RenderInlines(elements))
    case RichTextSection(elements) => RenderInlines(elements)
    case UnknownBlock => ""
  }

  /** `blocks.map(richTextBlockElementToMrkdwn).join("")`. */
  function RenderBlocks(blocks: seq<Block>): string
  {
    Concat(seq(|blocks|, i requires 0 <= i < |blocks| => RenderBlock(blocks[i])))
  }

  /** `richTextBlockToMrkdwn`: the block elements rendered one after the other. */
  function RenderDocument(doc: RichTextBlock): string
  {
    RenderBlocks(doc.elements)
  }

  /** Section and preformatted blocks distribute over concatenation of their elements. */
  lemma RenderBlockAppend(xs: seq<Inline>, ys: seq<Inline>)
    ensures RenderBlock(RichTextSection(xs + ys)) == RenderBlock(RichTextSection(xs)) + RenderBlock(RichTextSection(ys))
    ensures RenderBlock(RichTextPreformatted(xs + ys)) == "```" + RenderInlines(xs) + RenderInlines(ys) + "```"
  {
    RenderInlinesAppend(xs, ys);
  }

  /** Rendering a document whose blocks are `xs + ys` renders `xs`, then `ys`. */
  lemma RenderBlocksAppend(xs: seq<Block>, ys: seq<Block>)
    ensures RenderBlocks(xs + ys) == RenderBlocks(xs) + RenderBlocks(ys)
    ensures RenderDocument(RichTextBlock(xs + ys)) == RenderDocument(RichTextBlock(xs)) + RenderDocument(RichTextBlock(ys))
  {
    var all := seq(|xs + ys|, i requires 0 <= i < |xs + ys| => RenderBlock((xs + ys)[i]));
    var left := seq(|xs|, i requires 0 <= i < |xs| => RenderBlock(xs[i]));
    var right := seq(|ys|, i requires 0 <= i < |ys| => RenderBlock(ys[i]));
    assert all == left + right;
    ConcatAppend(left, right);
  }

  lemma RenderBlocksSingle(b: Block)
    ensures RenderBlocks([b]) == RenderBlock(b)
  {
    assert seq(1, i requires 0 <= i < 1 => RenderBlock([b][i])) == [RenderBlock(b)];
  }

  /** A list without an indent renders like one at indent 0. */
  lemma AbsentIndentIsZero(sections: seq<Section>)
    ensures RenderBlock(RichTextList(None, sections)) == RenderBlock(RichTextList(Some(0), sections))
  {
  }
}
