# Rich text to mrkdwn renderer

A Dafny model of the renderer in the outgoing-webhook Slack function. The
renderer turns a Slack rich-text block into a string of mrkdwn before the
webhook is called. It has four layers:

- **Style application** (`Styling`): wraps a fragment in code, strike,
  italic and bold fences, in that order from the inside out. It does nothing
  when the element has no style, or when the fragment starts or ends with a
  space.
- **Inline elements** (`Inlines`): broadcast, channel, color, date, emoji,
  link, team, text, user and usergroup elements, plus `Unknown` for any
  other `type` tag. Each renders to its mrkdwn fragment and is then styled,
  except emoji, which is never styled. Optional string fields (a link's
  text, a date's URL and fallback) are tested for truthiness, so an empty
  string behaves like an absent field (`Present`).
- **Blocks** (`Blocks`): sections, lists (one line per section, indented
  four spaces per level, then the bullet), preformatted runs (triple
  backticks on both sides) and quotes (`"> "` at the start and after every
  newline). `UnknownBlock` stands for any other tag and renders as `""`.
- **Document** (`Blocks.RenderDocument`): the block renderings, one after
  the other.

`Strings` models the JavaScript string operations the renderer uses:
`split("\n")`, `join`, and the decimal text of a timestamp.
`Examples` pins the behaviour on small documents.

All operations are Dafny functions, because the renderer only computes
values. The one accumulating loop, the list renderer, is also modelled as a
method (`Blocks.RenderListLoop`), and is proved equal to its specification
function `Blocks.RenderList`.

## Model

| member | source | states |
|---|---|---|
| `Styling.StyleUnchangedIff` | functions/outgoing_webhook.ts:102-107 | The text comes back unchanged exactly when the style is absent, the text starts or ends with a space, or no flag is set (both directions). |
| `Styling.SpaceBoundedUnstyled` | functions/outgoing_webhook.ts:102 | A text that starts or ends with a space is returned unchanged, for every style. |
| `Styling.StyleWraps` | functions/outgoing_webhook.ts:103-107 | When styling applies, the result is `Opening(s) + text + Closing(s)`. Both fences depend only on the flags, nest code innermost and bold outermost, and each has length `[code] + [strike] + [italic] + 2·[bold]`. |
| `Inlines.StyleAppliedLast` | functions/outgoing_webhook.ts:111-147 | An emoji renders as `":" + name + ":"` whatever its style. Every other known element renders as its unstyled rendering passed through style application. An unknown element renders as `""`. |
| `Inlines.LinkRendering` | functions/outgoing_webhook.ts:128-133 | A link renders as styled `<url\|text>` when its text is truthy, and as the styled bare URL otherwise; `Some("")` renders like `None`. |
| `Inlines.DateRendering` | functions/outgoing_webhook.ts:119-125 | A date renders as its unstyled token passed through style application. The token is `<!date^ts^format`, then `^url` only for a truthy URL, then `\|fallback` only for a truthy fallback, then `>`. An empty URL or fallback is the same as an absent one, each independently of the other. |
| `Strings.Decimal` | functions/outgoing_webhook.ts:120 | The timestamp's text is a non-empty run of decimal digits with no leading zero. |
| `Strings.DecimalRoundTrip` | functions/outgoing_webhook.ts:120 | Reading the timestamp's digits back gives the timestamp. |
| `Inlines.RenderInlinesAppend` | functions/outgoing_webhook.ts:150-152 | Rendering a run of inline elements distributes over concatenation of the runs. |
| `Strings.SplitLines` | functions/outgoing_webhook.ts:95 | `split("\n")` gives one piece more than there are newlines, and no piece holds a newline. |
| `Strings.JoinSplitLines` | functions/outgoing_webhook.ts:95 | Splitting on newlines and joining with a separator replaces each newline by that separator. |
| `Strings.SplitLinesRoundTrip` | functions/outgoing_webhook.ts:95 | Joining the split pieces with `"\n"` gives the original string back. |
| `Blocks.QuoteIsPrefixing` | functions/outgoing_webhook.ts:94-96 | Quoting is `"> "` followed by the text with every newline replaced by `"\n> "`. |
| `Blocks.QuoteShape` | functions/outgoing_webhook.ts:94-96 | A quote starts with `"> "`, every newline in it is followed by `"> "`, and it has as many newlines as the text. Removing the markers gives the text back, so nothing else changes. |
| `Blocks.Indentation` | functions/outgoing_webhook.ts:157 | The indentation is `4·level` characters, all spaces. |
| `Blocks.AbsentIndentIsZero` | functions/outgoing_webhook.ts:157 | A list without an indent renders like a list at indent 0. |
| `Blocks.RenderListLoop` | functions/outgoing_webhook.ts:154-162 | The accumulating loop returns the concatenation of one line per section, in order. Each line is indentation, `" " + BULLET + " "`, the section's rendering and `"\n"`. |
| `Blocks.RenderListAppend` | functions/outgoing_webhook.ts:154-162 | Rendering the list of `xs + ys` gives the rendering of `xs`, then that of `ys`. |
| `Blocks.ListNewlines` | functions/outgoing_webhook.ts:155-161 | A list has exactly one newline per section on top of the newlines its sections render. |
| `Blocks.ListLinesSplit` | functions/outgoing_webhook.ts:155-161 | When no section renders a newline, line `k` of the list is the prefix followed by section `k`'s rendering, and the split ends with one empty piece. |
| `Blocks.RenderBlockAppend` | functions/outgoing_webhook.ts:170-178 | Section blocks distribute over concatenation of their elements. A preformatted block is the concatenated rendering between two triple-backtick fences. |
| `Blocks.RenderBlocksAppend` | functions/outgoing_webhook.ts:186-191 | Rendering a document distributes over concatenation of its blocks. |
| `Examples.AllFlagsNesting` | functions/outgoing_webhook.ts:103-107 | `"hi"` with all four flags renders as ``**_~`hi`~_**``. |
| `Examples.LeadingSpaceUnstyled` | functions/outgoing_webhook.ts:102 | `" hi"` with all four flags renders as `" hi"`. |
| `Examples.EmojiUnstyled` | functions/outgoing_webhook.ts:126-127 | A bold `smile` emoji renders as `:smile:`. |
| `Examples.LinkForms` | functions/outgoing_webhook.ts:128-133 | `http://x` without text renders bare; with text `X` it renders as `<http://x\|X>`. |
| `Examples.QuoteTwoLines` | functions/outgoing_webhook.ts:173-176 | A quote of the texts `"a\n"` and `"b"` renders as `"> a\n> b"`. |
| `Examples.IndentedList` | functions/outgoing_webhook.ts:154-162 | A list at indent 1 with sections `a` and `b` renders as two lines, each with four spaces, the bullet and a trailing newline. |
| `Examples.HelloWorld` | functions/outgoing_webhook.ts:186-191 | A section of `"Hello, "` and a bold `"World!"` renders as `"Hello, **World!**"`. |
| `Examples.UnknownKindsEmpty` | functions/outgoing_webhook.ts:145-146 | An unknown inline element, and a document of an unknown block and a section holding only an unknown element, render as `""`. |

## Left out

- The Slack function handler (functions/outgoing_webhook.ts:49-82) is not modelled. It does the HTTP POST, the status check, header construction and response parsing, which are network I/O and JSON.
- The function definition (functions/outgoing_webhook.ts:11-41) is not modelled. It is SDK registration metadata with no behaviour.
- functions/outgoing_webhook_tests.ts and manifest.ts are not part of this model. The tests exercise only the HTTP handler, and the manifest is static configuration.
- Missing fields are not modelled. Each element is assumed to carry the fields its tag requires. In the source a missing field has one of three outcomes. It is interpolated as `"undefined"` when it sits inside a template: an emoji's name, a link's URL inside `<…|…>`, a date's timestamp or format. It renders as `""` when the missing value is the whole fragment and there is no style, because `join` treats `undefined` as empty: a text's `text`, a color's value, a team id, or a link with neither text nor URL. It raises a `TypeError` from `startsWith` when such a whole-fragment value is missing and a style is present.
- `Inlines.Inline.Date` holds the timestamp as a natural number rendered in decimal. How JavaScript formats fractional, negative or very large numbers (exponent notation) is not modelled.
- `Blocks.Block.RichTextList` holds the indent as an optional natural number. A negative indent, on which `repeat` throws, cannot be expressed.
- `Blocks.BULLET` is the three-character string the source text spells at that point. Whether that is a mis-encoded `•` is not the model's concern, and no property depends on the glyph except that it holds no newline.
- Strings are sequences of Unicode characters. JavaScript's UTF-16 code units only matter for lengths of non-BMP text, and those are not modelled.
- Rendering the same document twice giving the same output holds because every operation is a function; no separate lemma states it.
