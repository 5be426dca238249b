/**
 * Style application: wrapping a rendered fragment in mrkdwn style fences.
 */
module Styling {
  import opened Options

  /** The four independent style flags an inline element may carry. */
  datatype Style = Style(bold: bool, italic: bool, strike: bool, code: bool)

  /** The text starts or ends with a space, so no style is applied to it. */
  predicate SpaceBounded(text: string)
  {
    |text| > 0 && (text[0] == ' ' || text[|text| - 1] == ' ')
  }

  /** `marker` on both sides of `text` when `on`, `text` itself otherwise. */
  function Fence(text: string, on: bool, marker: string): string
  {
    if on then marker + text + marker else text
  }

  /**
   * The style fences around `text`: none when there is no style or the text
   * is space-bounded; otherwise code, then strike, then italic, then bold,
   * each wrapping everything applied so far.
   */
  function ApplyStyle(text: string, style: Option<Style>): string
  {
    if style.None? || SpaceBounded(text) then text
    else
      var s := style.value;
      var coded := Fence(text, s.code, "`");
      var struck := Fence(coded, s.strike, "~");
      var slanted := Fence(struck, s.italic, "_");
      Fence(slanted, s.bold, "**")
  }

  /** `marker` when `on`, nothing otherwise. */
  function Marker(on: bool, marker: string): string
  {
    if on then marker else ""
  }

  /** The fences that precede the text, outermost first; they depend only on the flags. */
  function Opening(s: Style): string
  {
    Marker(s.bold, "**") + Marker(s.italic, "_") + Marker(s.strike, "~") + Marker(s.code, "`")
  }

  /** The fences that follow the text, innermost first: `Opening` read backwards. */
  function Closing(s: Style): string
  {
    Marker(s.code, "`") + Marker(s.strike, "~") + Marker(s.italic, "_") + Marker(s.bold, "**")
  }

  /** Characters a style adds on each side: one per code, strike or italic fence, two for bold. */
  function FenceWidth(s: Style): nat
  {
    (if s.code then 1 else 0) + (if s.strike then 1 else 0)
    + (if s.italic then 1 else 0) + (if s.bold then 2 else 0)
  }

  /** No flag is set. */
  predicate Plain(s: Style)
  {
    !s.bold && !s.italic && !s.strike && !s.code
  }

  /**
   * When styling applies, the result is a prefix and a suffix that depend only
   * on the flags around the unchanged text, and it grows by the fence widths.
   */
  lemma StyleWraps(text: string, s: Style)
    requires !SpaceBounded(text)
    ensures ApplyStyle(text, Some(s)) == Opening(s) + text + Closing(s)
    ensures |Opening(s)| == |Closing(s)| == FenceWidth(s)
    ensures |ApplyStyle(text, Some(s))| == |text| + 2 * FenceWidth(s)
  {
    var o4, o3, o2, o1 := Marker(s.bold, "**"), Marker(s.italic, "_"), Marker(s.strike, "~"), Marker(s.code, "`");
    var coded := Fence(text, s.code, "`");
    var struck := Fence(coded, s.strike, "~");
    var slanted := Fence(struck, s.italic, "_");
    FenceByMarkers(text, s.code, "`");
    FenceByMarkers(coded, s.strike, "~");
    FenceByMarkers(struck, s.italic, "_");
    FenceByMarkers(slanted, s.bold, "**");
    FencesRegroup(o4, o3, o2, o1, text);
  }

  lemma FenceByMarkers(text: string, on: bool, marker: string)
    ensures Fence(text, on, marker) == Marker(on, marker) + text + Marker(on, marker)
  {
  }

  lemma FencesRegroup(o4: string, o3: string, o2: string, o1: string, t: string)
    ensures o4 + (o3 + (o2 + (o1 + t + o1) + o2) + o3) + o4
         == (o4 + o3 + o2 + o1) + t + (o1 + o2 + o3 + o4)
  {
  }

  /**
   * Style application leaves the text as it is exactly when there is no
   * style, the text starts or ends with a space, or no flag is set.
   */
  lemma StyleUnchangedIff(text: string, style: Option<Style>)
    ensures ApplyStyle(text, style) == text
        <==> style.None? || SpaceBounded(text) || Plain(style.value)
  {
    if !style.None? && !SpaceBounded(text) {
      StyleWraps(text, style.value);
    }
  }

  /** A space-bounded text is never styled, whichever flags are set. */
  lemma SpaceBoundedUnstyled(text: string, style: Option<Style>)
    requires SpaceBounded(text)
    ensures ApplyStyle(text, style) == text
  {
  }
}
