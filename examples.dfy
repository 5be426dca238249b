/**
 * Concrete renderings that pin the documented behaviour on small inputs.
 */
module Examples {
  import opened Options
  import opened Strings
  import opened Styling
  import opened Inlines
  import opened Blocks

  const AllFlags := Some(Style(true, true, true, true))
  const BoldOnly := Some(Style(true, false, false, false))

  /** With every flag set, code is innermost and bold outermost. */
  lemma AllFlagsNesting()
    ensures RenderInline(Text("hi", AllFlags)) == "**_~`hi`~_**"
  {
  }

  /** A leading space switches styling off. */
  lemma LeadingSpaceUnstyled()
    ensures RenderInline(Text(" hi", AllFlags)) == " hi"
  {
  }

  /** An emoji is never styled. */
  lemma EmojiUnstyled()
    ensures RenderInline(Emoji("smile", BoldOnly)) == ":smile:"
  {
  }

  /** A link without a caption is its bare URL; with one, the labelled form. */
  lemma LinkForms()
    ensures RenderInline(Link("http://x", None, None)) == "http://x"
    ensures RenderInline(Link("http://x", Some("X"), None)) == "<http://x|X>"
  {
  }

  /** A quote of `"a\n"` then `"b"` marks both lines. */
  lemma QuoteTwoLines()
    ensures RenderBlock(RichTextQuote([Text("a\n", None), Text("b", None)])) == "> a\n> b"
  {
    TwoInlines(Text("a\n", None), Text("b", None));
    assert RenderInlines([Text("a\n", None), Text("b", None)]) == "a\nb";
    QuoteIsPrefixing("a\nb");
    var t := "a\nb";
    assert t[1..] == "\nb" && t[1..][1..] == "b" && "b"[1..] == "";
    assert ReplaceNewlines("b", "\n> ") == "b";
    assert ReplaceNewlines("\nb", "\n> ") == "\n> b";
    assert ReplaceNewlines("a\nb", "\n> ") == "a\n> b";
    assert QuoteMrkdwn("a\nb") == "> a\n> b";
  }

  /** A list at indent 1 with two one-text sections. */
  lemma IndentedList()
    ensures RenderBlock(RichTextList(Some(1), [Section([Text("a", None)]), Section([Text("b", None)])]))
         == "    " + " " + BULLET + " a\n" + "    " + " " + BULLET + " b\n"
  {
    var a, b := Section([Text("a", None)]), Section([Text("b", None)]);
    RenderInlinesSingle(Text("a", None));
    RenderInlinesSingle(Text("b", None));
    assert Indentation(1) == "    ";
    assert ListLine(1, a) == "    " + " " + BULLET + " a\n";
    assert ListLine(1, b) == "    " + " " + BULLET + " b\n";
    assert ListLines(1, [a, b]) == [ListLine(1, a), ListLine(1, b)];
    ConcatAppend([ListLine(1, a)], [ListLine(1, b)]);
    assert [ListLine(1, a)] + [ListLine(1, b)] == [ListLine(1, a), ListLine(1, b)];
    assert Concat([ListLine(1, a), ListLine(1, b)]) == ListLine(1, a) + ListLine(1, b);
  }

  /** A section of plain and bold text inside a document. */
  lemma HelloWorld()
    ensures RenderDocument(RichTextBlock([RichTextSection([Text("Hello, ", None), Text("World!", BoldOnly)])]))
         == "Hello, **World!**"
  {
    TwoInlines(Text("Hello, ", None), Text("World!", BoldOnly));
    RenderBlocksSingle(RichTextSection([Text("Hello, ", None), Text("World!", BoldOnly)]));
  }

  lemma TwoInlines(x: Inline, y: Inline)
    ensures RenderInlines([x, y]) == RenderInline(x) + RenderInline(y)
  {
    RenderInlinesSingle(x);
    RenderInlinesSingle(y);
    RenderInlinesAppend([x], [y]);
    assert [x] + [y] == [x, y];
  }

  /** Unrecognised inline and block kinds render as nothing. */
  lemma UnknownKindsEmpty()
    ensures RenderInline(Unknown) == ""
    ensures RenderDocument(RichTextBlock([UnknownBlock, RichTextSection([Unknown])])) == ""
  {
    RenderInlinesSingle(Unknown);
    RenderBlocksSingle(UnknownBlock);
    RenderBlocksSingle(RichTextSection([Unknown]));
    RenderBlocksAppend([UnknownBlock], [RichTextSection([Unknown])]);
    assert [UnknownBlock] + [RichTextSection([Unknown])] == [UnknownBlock, RichTextSection([Unknown])];
  }
}
