/**
 * Inline elements of a rich-text document and their mrkdwn rendering.
 */
module Inlines {
  import opened Options
  import opened Strings
  import opened Styling

  /**
   * One inline element. Each constructor is one value of the element's `type`
   * tag; `Unknown` stands for every other tag. Emoji carries a style too,
   * which its rendering ignores.
   */
  datatype Inline =
    | Broadcast(range: string, style: Option<Style>)
    | Channel(channelId: string, style: Option<Style>)
    | Color(value: string, style: Option<Style>)
    | Date(timestamp: nat, format: string, fallbackUrl: Option<string>,
           fallbackText: Option<string>, style: Option<Style>)
    | Emoji(name: string, style: Option<Style>)
    | Link(url: string, caption: Option<string>, style: Option<Style>)
    | Team(teamId: string, style: Option<Style>)
    | Text(text: string, style: Option<Style>)
    | User(userId: string, style: Option<Style>)
    | Usergroup(usergroupId: string, style: Option<Style>)
    | Unknown

  /** An optional string field is truthy: present and not empty. */
  predicate Present(field: Option<string>)
  {
    field.Some? && field.value != ""
  }

  /** The date token before styling, with its optional link and fallback segments. */
  function DateText(timestamp: nat, format: string, url: Option<string>, fallback: Option<string>): string
  {
    var text := "<!date^" + Decimal(timestamp) + "^" + format;
    var linked := if Present(url) then text + "^" + url.value else text;
    var withFallback := if Present(fallback) then linked + "|" + fallback.value else linked;
    withFallback + ">"
  }

  /** The text a link shows before styling: the labelled form when the caption is truthy, else the bare URL. */
  function LinkText(url: string, caption: Option<string>): string
  {
    if Present(caption) then "<" + url + "|" + caption.value + ">" else url
  }

  /** The mrkdwn for one inline element. */
  function RenderInline(e: Inline): string
  {
    match e
    case Broadcast(range, style) => ApplyStyle("<!" + range + ">", style)
    case Channel(channelId, style) => ApplyStyle("<#" + channelId + ">", style)
    case Color(value, style) => ApplyStyle(value, style)
    case Date(timestamp, format, url, fallback, style) =>
      ApplyStyle(DateText(timestamp, format, url, fallback), style)
    case Emoji(name, _) => ":" + name + ":"
    case Link(url, caption, style) => ApplyStyle(LinkText(url, caption), style)
    case Team(teamId, style) => ApplyStyle(teamId, style)
    case Text(text, style) => ApplyStyle(text, style)
    case User(userId, style) => ApplyStyle("<@" + userId + ">", style)
    case Usergroup(usergroupId, style) => ApplyStyle("<!subteam^" + usergroupId + ">", style)
    case Unknown => ""
  }

  /** `elements.map(richTextElementToMrkdwn).join("")`. */
  function RenderInlines(elements: seq<Inline>): string
  {
    Concat(seq(|elements|, i requires 0 <= i < |elements| => RenderInline(elements[i])))
  }

  /** The element with its style removed (Unknown has none). */
  function Unstyled(e: Inline): Inline
  {
    if e.Unknown? then e else e.(style := None)
  }

  /**
   * Every element other than an emoji renders as its unstyled rendering passed
   * through style application; an emoji renders as `:name:` whatever its style.
   */
  lemma StyleAppliedLast(e: Inline)
    ensures e.Emoji? ==> RenderInline(e) == ":" + e.name + ":"
    ensures !e.Emoji? && !e.Unknown? ==> RenderInline(e) == ApplyStyle(RenderInline(Unstyled(e)), e.style)
    ensures e.Unknown? ==> RenderInline(e) == ""
  {
  }

  /** A link shows `<url|caption>` exactly when its caption is truthy; an empty caption is the same as none. */
  lemma LinkRendering(url: string, caption: Option<string>, style: Option<Style>)
    ensures Present(caption) ==> RenderInline(Link(url, caption, style)) == ApplyStyle("<" + url + "|" + caption.value + ">", style)
    ensures !Present(caption) ==> RenderInline(Link(url, caption, style)) == ApplyStyle(url, style)
    ensures RenderInline(Link(url, Some(""), style)) == RenderInline(Link(url, None, style))
  {
  }

  /**
   * A date is `<!date^ts^format`, then `^url` only for a truthy URL, then
   * `|fallback` only for a truthy fallback, then `>`; each optional segment
   * depends on its own field only. The whole token is then styled.
   */
  lemma DateRendering(timestamp: nat, format: string, url: Option<string>, fallback: Option<string>, style: Option<Style>)
    ensures RenderInline(Date(timestamp, format, url, fallback, style))
         == ApplyStyle(DateText(timestamp, format, url, fallback), style)
    ensures DateText(timestamp, format, url, fallback)
         == "<!date^" + Decimal(timestamp) + "^" + format
            + (if Present(url) then "^" + url.value else "")
            + (if Present(fallback) then "|" + fallback.value else "")
            + ">"
    ensures DateText(timestamp, format, url, Some("")) == DateText(timestamp, format, url, None)
    ensures DateText(timestamp, format, Some(""), fallback) == DateText(timestamp, format, None, fallback)
  {
    var head := "<!date^" + Decimal(timestamp) + "^" + format;
    var u := if Present(url) then "^" + url.value else "";
    var f := if Present(fallback) then "|" + fallback.value else "";
    var linked := if Present(url) then head + "^" + url.value else head;
    assert linked == head + u;
    var withFallback := if Present(fallback) then linked + "|" + fallback.value else linked;
    assert withFallback == head + u + f;
  }

  /** Rendering a concatenation of element sequences concatenates the renderings. */
  lemma RenderInlinesAppend(xs: seq<Inline>, ys: seq<Inline>)
    ensures RenderInlines(xs + ys) == RenderInlines(xs) + RenderInlines(ys)
  {
    var all := seq(|xs + ys|, i requires 0 <= i < |xs + ys| => RenderInline((xs + ys)[i]));
    var left := seq(|xs|, i requires 0 <= i < |xs| => RenderInline(xs[i]));
    var right := seq(|ys|, i requires 0 <= i < |ys| => RenderInline(ys[i]));
    assert all == left + right;
    ConcatAppend(left, right);
  }

  lemma RenderInlinesSingle(e: Inline)
    ensures RenderInlines([e]) == RenderInline(e)
  {
    assert seq(1, i requires 0 <= i < 1 => RenderInline([e][i])) == [RenderInline(e)];
  }
}
