/** Text layout arithmetic: text size and height from line infos, the line iterator, glyph
    placement along each line with advances and pair kerning, and point/pixel conversion.

    The font's metrics (glyph lookup, advance widths, pair kerning) are uninterpreted
    functions carried by `Font`. Line breaking (`LineInfos::new`) and line placement
    (`LineRects::new`) are not part of this model: they are passed in as functions. */
module TextLayout {
  import opened Wrappers
  import opened Geometry

  /** The way text wraps around the available width. */
  datatype Wrap = NoWrap | Character | Whitespace

  /** Horizontal alignment of lines within their box (consumed only by line placement). */
  datatype Align = Start | Middle | End

  /** `f32::MAX`, used as the width of an unbounded box. */
  const F32_MAX: real := 340282346638528859811704183484516925440.0

  /** `rusttype::GlyphId`. */
  type GlyphId = nat

  /** What the layout code asks of a font: the glyph of a character, the advance width of a
      glyph at a scale, and the kerning between two glyphs at a scale. */
  datatype Font = Font(
    glyphId: char -> GlyphId,
    advanceWidth: (GlyphId, real) -> real,
    pairKerning: (real, GlyphId, GlyphId) -> real)

  /** One wrapped line: the range of the text it covers and its width. Ranges index
      characters; the source's ranges index UTF-8 bytes. */
  datatype LineInfo = LineInfo(start: nat, end: nat, width: real)

  /** Line breaking: (text, font, font size, wrap, available width) to the lines. */
  type LineInfosFn = (seq<char>, Font, real, Wrap, real) -> seq<LineInfo>

  /** Line placement: (lines, font size, box, alignment, line height) to one rect per line. */
  type LineRectsFn = (seq<LineInfo>, real, Rect, Align, real) -> seq<Rect>

  function Max(a: real, b: real): real
  {
    if a < b then b else a
  }

  /** The fold `max(…max(max(0, w0), w1)…, wn)` over the line widths. */
  function MaxLineWidth(infos: seq<LineInfo>): (w: real)
    ensures 0.0 <= w
    ensures forall i :: 0 <= i < |infos| ==> infos[i].width <= w
    ensures w == 0.0 || exists i :: 0 <= i < |infos| && w == infos[i].width
  {
    if infos == [] then 0.0
    else Max(MaxLineWidth(infos[..|infos| - 1]), infos[|infos| - 1].width)
  }

  /** The size text needs when laid out without a width limit: as wide as its widest line
      (and never negative), as tall as its lines. */
  function GetTextSize(lineInfos: LineInfosFn, text: seq<char>, font: Font, fontSize: real,
                       lineHeight: real, wrap: Wrap): (size: Size)
    ensures var infos := lineInfos(text, font, fontSize, wrap, F32_MAX);
      && 0.0 <= size.width
      && (forall i :: 0 <= i < |infos| ==> infos[i].width <= size.width)
      && (size.width == 0.0 || exists i :: 0 <= i < |infos| && size.width == infos[i].width)
      && size.height == |infos| as real * lineHeight
  {
    var infos := lineInfos(text, font, fontSize, wrap, F32_MAX);
    Size(MaxLineWidth(infos), |infos| as real * lineHeight)
  }

  /** The height of text wrapped at `width`: the number of lines times the line height. */
  function GetTextHeight(lineInfos: LineInfosFn, text: seq<char>, font: Font, fontSize: real,
                         lineHeight: real, wrap: Wrap, width: real): (height: real)
    ensures 0.0 <= lineHeight ==> 0.0 <= height
    ensures lineInfos(text, font, fontSize, wrap, width) == [] ==> height == 0.0
  {
    |lineInfos(text, font, fontSize, wrap, width)| as real * lineHeight
  }

  /** The height `get_text_size` reports is the height `get_text_height` gives for an
      unbounded width. */
  lemma TextSizeHeightIsUnboundedTextHeight(lineInfos: LineInfosFn, text: seq<char>, font: Font,
                                            fontSize: real, lineHeight: real, wrap: Wrap)
    ensures GetTextSize(lineInfos, text, font, fontSize, lineHeight, wrap).height
         == GetTextHeight(lineInfos, text, font, fontSize, lineHeight, wrap, F32_MAX)
  {
  }

  // ---------------------------------------------------------------- lines

  datatype Range = Range(start: nat, end: nat)

  predicate RangeIn(text: seq<char>, r: Range)
  {
    r.start <= r.end <= |text|
  }

  predicate RangesIn(text: seq<char>, ranges: seq<Range>)
  {
    forall i :: 0 <= i < |ranges| ==> RangeIn(text, ranges[i])
  }

  /** The substrings of `text` the ranges select, in range order. */
  function Slices(text: seq<char>, ranges: seq<Range>): (lines: seq<seq<char>>)
    requires RangesIn(text, ranges)
    ensures |lines| == |ranges|
    ensures forall i :: 0 <= i < |ranges| ==> lines[i] == text[ranges[i].start..ranges[i].end]
  {
    if ranges == [] then []
    else [text[ranges[0].start..ranges[0].end]] + Slices(text, ranges[1..])
  }

  /** The iterator `lines(text, ranges)` returns. Slicing with a range outside the text panics
      in the source, so each step requires the range it consumes to be inside the text. */
  class Lines {
    const text: seq<char>
    var ranges: seq<Range>

    constructor (text: seq<char>, ranges: seq<Range>)
      ensures this.text == text && this.ranges == ranges
    {
      this.text := text;
      this.ranges := ranges;
    }

    /** Yields the slice of the next range, or ends when the ranges do. */
    method Next() returns (line: Option<seq<char>>)
      requires ranges != [] ==> RangeIn(text, ranges[0])
      modifies this
      ensures old(ranges) == [] ==> line == None && ranges == []
      ensures old(ranges) != [] ==>
        && line == Some(text[old(ranges)[0].start..old(ranges)[0].end])
        && ranges == old(ranges)[1..]
    {
      if ranges == [] {
        line := None;
      } else {
        var range := ranges[0];
        ranges := ranges[1..];
        line := Some(text[range.start..range.end]);
      }
    }
  }

  /** Running the line iterator to its end yields exactly the slices of the ranges. */
  method CollectLines(lines: Lines) returns (out: seq<seq<char>>)
    requires RangesIn(lines.text, lines.ranges)
    modifies lines
    ensures out == Slices(lines.text, old(lines.ranges))
    ensures lines.ranges == []
  {
    ghost var rs := lines.ranges;
    ghost var all := Slices(lines.text, rs);
    out := [];
    var k := 0;
    var next := lines.Next();
    while next.Some?
      invariant 0 <= k <= |rs| && out == all[..k]
      invariant next.Some? ==> k < |rs| && next.value == all[k] && lines.ranges == rs[k + 1..]
      invariant next.None? ==> k == |rs| && lines.ranges == []
      decreases |rs| - k
    {
      assert all[..k + 1] == all[..k] + [all[k]];
      out := out + [next.value];
      k := k + 1;
      next := lines.Next();
    }
    assert all[..k] == all;
  }

  // ---------------------------------------------------------------- glyph placement

  /** A glyph placed at a position, at a scale. */
  datatype PositionedGlyph = PositionedGlyph(id: GlyphId, scale: real, position: Point)

  /** The glyphs `glyphs_for` yields for some characters: one per character. */
  function GlyphIds(font: Font, chars: seq<char>): (ids: seq<GlyphId>)
    ensures |ids| == |chars| && forall i :: 0 <= i < |chars| ==> ids[i] == font.glyphId(chars[i])
  {
    seq(|chars|, i requires 0 <= i < |chars| => font.glyphId(chars[i]))
  }

  /** The sum of the advance widths of a run of glyphs. */
  function SumAdvances(font: Font, scale: real, ids: seq<GlyphId>): real
  {
    if ids == [] then 0.0
    else SumAdvances(font, scale, ids[..|ids| - 1]) + font.advanceWidth(ids[|ids| - 1], scale)
  }

  /** The sum of the kerning of each adjacent pair in a run of glyphs. */
  function SumPairKerning(font: Font, scale: real, ids: seq<GlyphId>): real
  {
    if |ids| < 2 then 0.0
    else SumPairKerning(font, scale, ids[..|ids| - 1]) + font.pairKerning(scale, ids[|ids| - 2], ids[|ids| - 1])
  }

  /** The width of a run of glyphs: its advances plus the kerning of its adjacent pairs. */
  function RunWidth(font: Font, scale: real, ids: seq<GlyphId>): real
  {
    SumAdvances(font, scale, ids) + SumPairKerning(font, scale, ids)
  }

  function LastOf(ids: seq<GlyphId>): Option<GlyphId>
  {
    if ids == [] then None else Some(ids[|ids| - 1])
  }

  /** The source's scan over a line's glyphs: state `(last, x)`; each glyph is placed at the
      running `x`, and `x` then grows by the glyph's advance plus the kerning between the
      previous glyph and this one. */
  function ScanGlyphs(font: Font, scale: real, point: Point, ids: seq<GlyphId>,
                      last: Option<GlyphId>, x: real): (r: seq<PositionedGlyph>)
    ensures |r| == |ids|
  {
    if ids == [] then []
    else
      var g := ids[0];
      var kern := if last.Some? then font.pairKerning(scale, last.value, g) else 0.0;
      var width := font.advanceWidth(g, scale);
      [PositionedGlyph(g, scale, Point(point.x + x, point.y))]
        + ScanGlyphs(font, scale, point, ids[1..], Some(g), x + width + kern)
  }

  /** The glyphs of one line whose baseline starts at `point`; the scan starts afresh. */
  function LineGlyphs(font: Font, scale: real, point: Point, chars: seq<char>): (r: seq<PositionedGlyph>)
    ensures |r| == |chars|
    ensures |chars| > 0 ==> r[0] == PositionedGlyph(font.glyphId(chars[0]), scale, point)
  {
    ScanGlyphs(font, scale, point, GlyphIds(font, chars), None, 0.0)
  }

  /** Extending a run by one glyph adds its advance and, unless it is the first, the kerning
      between it and the glyph before. */
  lemma RunWidthStep(font: Font, scale: real, ids: seq<GlyphId>, j: nat)
    requires j < |ids|
    ensures RunWidth(font, scale, ids[..j + 1]) == RunWidth(font, scale, ids[..j])
      + font.advanceWidth(ids[j], scale) + (if 0 < j then font.pairKerning(scale, ids[j - 1], ids[j]) else 0.0)
  {
    assert ids[..j + 1][..j] == ids[..j];
    if 0 < j {
      assert ids[..j][..j - 1] == ids[..j - 1];
    }
  }

  /** Scanning from glyph `j` on, with the state the scan has there, places every later glyph
      `i` at the width of the run before it. */
  lemma {:induction false} ScanFrom(font: Font, scale: real, point: Point, ids: seq<GlyphId>, j: nat)
    requires j <= |ids|
    ensures var r := ScanGlyphs(font, scale, point, ids[j..], LastOf(ids[..j]), RunWidth(font, scale, ids[..j]));
      forall i :: j <= i < |ids| ==>
        r[i - j] == PositionedGlyph(ids[i], scale, Point(point.x + RunWidth(font, scale, ids[..i]), point.y))
    decreases |ids| - j
  {
    if j < |ids| {
      var last := LastOf(ids[..j]);
      var x := RunWidth(font, scale, ids[..j]);
      var kern := if last.Some? then font.pairKerning(scale, last.value, ids[j]) else 0.0;
      RunWidthStep(font, scale, ids, j);
      assert x + font.advanceWidth(ids[j], scale) + kern == RunWidth(font, scale, ids[..j + 1]);
      assert ids[j..][1..] == ids[j + 1..];
      assert LastOf(ids[..j + 1]) == Some(ids[j]);
      ScanFrom(font, scale, point, ids, j + 1);
    }
  }

  /** Glyph `i` of a line is the glyph of character `i`, placed on the line's baseline at the
      sum of the advances of glyphs `0..i-1` plus the kerning of the pairs among them; the
      first glyph sits at the line's start. */
  lemma LineGlyphAt(font: Font, scale: real, point: Point, chars: seq<char>, i: nat)
    requires i < |chars|
    ensures |LineGlyphs(font, scale, point, chars)| == |chars|
    ensures LineGlyphs(font, scale, point, chars)[i] == PositionedGlyph(font.glyphId(chars[i]), scale,
      Point(point.x + RunWidth(font, scale, GlyphIds(font, chars)[..i]), point.y))
    ensures i == 0 ==> LineGlyphs(font, scale, point, chars)[i].position == point
  {
    var ids := GlyphIds(font, chars);
    ScanFrom(font, scale, point, ids, 0);
    assert ids[0..] == ids && ids[..0] == [];
  }

  /** The kerning of a pair moves the glyph after the pair, not the pair's second glyph: the
      gap from glyph `i` to glyph `i + 1` is glyph `i`'s advance plus the kerning of the pair
      (`i - 1`, `i`). */
  lemma KerningMovesGlyphAfterPair(font: Font, scale: real, point: Point, chars: seq<char>, i: nat)
    requires i + 1 < |chars|
    ensures var line := LineGlyphs(font, scale, point, chars);
      var ids := GlyphIds(font, chars);
      |line| == |chars| &&
      line[i + 1].position.x - line[i].position.x
        == font.advanceWidth(ids[i], scale) + (if 0 < i then font.pairKerning(scale, ids[i - 1], ids[i]) else 0.0)
  {
    LineGlyphAt(font, scale, point, chars, i);
    LineGlyphAt(font, scale, point, chars, i + 1);
    RunWidthStep(font, scale, GlyphIds(font, chars), i);
  }

  /** One line to lay out: its text and the start of its baseline. */
  datatype LineJob = LineJob(text: seq<char>, origin: Point)

  predicate LinesIn(text: seq<char>, infos: seq<LineInfo>)
  {
    forall k :: 0 <= k < |infos| ==> infos[k].start <= infos[k].end <= |text|
  }

  function Min(a: int, b: int): int
  {
    if a < b then a else b
  }

  /** Pairs each line's text with its rect (stopping at the shorter of the two, as `zip`
      does); a line's baseline starts at its rect's left edge, one font size below its top. */
  function LineJobs(text: seq<char>, infos: seq<LineInfo>, rects: seq<Rect>, fontSize: real): (jobs: seq<LineJob>)
    requires LinesIn(text, infos)
    ensures |jobs| == Min(|infos|, |rects|)
    ensures forall k :: 0 <= k < |jobs| ==>
      jobs[k] == LineJob(text[infos[k].start..infos[k].end], Point(rects[k].left, rects[k].top + fontSize))
  {
    seq(Min(|infos|, |rects|), k requires 0 <= k < Min(|infos|, |rects|) =>
      LineJob(text[infos[k].start..infos[k].end], Point(rects[k].left, rects[k].top + fontSize)))
  }

  /** The glyphs of all lines, line after line. */
  function PlaceLines(font: Font, scale: real, jobs: seq<LineJob>): (r: seq<PositionedGlyph>)
    ensures |r| == TotalChars(jobs)
  {
    if jobs == [] then []
    else
      var line := jobs[|jobs| - 1];
      PlaceLines(font, scale, jobs[..|jobs| - 1]) + LineGlyphs(font, scale, line.origin, line.text)
  }

  /** The number of characters in the lines. */
  function TotalChars(jobs: seq<LineJob>): nat
  {
    if jobs == [] then 0 else TotalChars(jobs[..|jobs| - 1]) + |jobs[|jobs| - 1].text|
  }

  /** Character `i` of line `k` becomes the glyph after all the glyphs of the earlier lines,
      and sits where that line's own scan puts it. */
  lemma {:induction false} PlaceLinesAt(font: Font, scale: real, jobs: seq<LineJob>, k: nat, i: nat)
    requires k < |jobs| && i < |jobs[k].text|
    ensures TotalChars(jobs[..k]) + i < |PlaceLines(font, scale, jobs)|
    ensures PlaceLines(font, scale, jobs)[TotalChars(jobs[..k]) + i] == PositionedGlyph(
      font.glyphId(jobs[k].text[i]), scale,
      Point(jobs[k].origin.x + RunWidth(font, scale, GlyphIds(font, jobs[k].text)[..i]), jobs[k].origin.y))
    decreases |jobs|
  {
    var n := |jobs|;
    var init := jobs[..n - 1];
    if k == n - 1 {
      LineGlyphAt(font, scale, jobs[k].origin, jobs[k].text, i);
      assert jobs[..k] == init;
    } else {
      assert init[..k] == jobs[..k];
      PlaceLinesAt(font, scale, init, k, i);
    }
  }

  /** The scan of one line: glyph after glyph, carrying the previous glyph and the running x. */
  method ScanLine(font: Font, scale: real, point: Point, lineText: seq<char>) returns (line: seq<PositionedGlyph>)
    ensures line == LineGlyphs(font, scale, point, lineText)
  {
    ghost var ids := GlyphIds(font, lineText);
    line := [];
    var last: Option<GlyphId> := None;
    var x := 0.0;
    var j := 0;
    while j < |lineText|
      invariant 0 <= j <= |lineText|
      invariant line + ScanGlyphs(font, scale, point, ids[j..], last, x) == LineGlyphs(font, scale, point, lineText)
    {
      var g := font.glyphId(lineText[j]);
      var kern := if last.Some? then font.pairKerning(scale, last.value, g) else 0.0;
      var width := font.advanceWidth(g, scale);
      assert ids[j..][1..] == ids[j + 1..];
      line := line + [PositionedGlyph(g, scale, Point(point.x + x, point.y))];
      last, x := Some(g), x + width + kern;
      j := j + 1;
    }
  }

  /** Lays out the glyphs of `text` in `rect`: for each line and its rect, the glyphs of the
      line's characters, the scan state starting afresh on every line. */
  method GetPositionedGlyphs(lineInfos: LineInfosFn, lineRects: LineRectsFn, text: seq<char>, rect: Rect,
                             font: Font, fontSize: real, lineHeight: real, lineWrap: Wrap, align: Align)
    returns (glyphs: seq<PositionedGlyph>)
    requires LinesIn(text, lineInfos(text, font, fontSize, lineWrap, rect.width))
    ensures var infos := lineInfos(text, font, fontSize, lineWrap, rect.width);
      glyphs == PlaceLines(font, fontSize, LineJobs(text, infos, lineRects(infos, fontSize, rect, align, lineHeight), fontSize))
  {
    var infos := lineInfos(text, font, fontSize, lineWrap, rect.width);
    var rects := lineRects(infos, fontSize, rect, align, lineHeight);
    var scale := fontSize;
    ghost var jobs := LineJobs(text, infos, rects, fontSize);
    glyphs := [];
    var k := 0;
    while k < |infos| && k < |rects|
      invariant 0 <= k <= |jobs|
      invariant glyphs == PlaceLines(font, scale, jobs[..k])
    {
      var lineText := text[infos[k].start..infos[k].end];
      var point := Point(rects[k].left, rects[k].top + fontSize);
      var line := ScanLine(font, scale, point, lineText);
      assert jobs[..k + 1][..k] == jobs[..k] && jobs[k] == LineJob(lineText, point);
      glyphs := glyphs + line;
      k := k + 1;
    }
    assert jobs[..k] == jobs;
  }

  // ---------------------------------------------------------------- units

  /** Points to pixels on a 96 dpi display (1 pt = 1/72 inch, 1 px = 1/96 inch). */
  function PtToPx(pt: real): (px: real)
    ensures 3.0 * px == 4.0 * pt
  {
    (pt * 4.0) / 3.0
  }

  /** Pixels to points on a 96 dpi display. */
  function PxToPt(px: real): (pt: real)
    ensures 4.0 * pt == 3.0 * px
  {
    (px * 3.0) / 4.0
  }

  lemma PxToPtUndoesPtToPx(pt: real)
    ensures PxToPt(PtToPx(pt)) == pt
  {
  }

  lemma PtToPxUndoesPxToPt(px: real)
    ensures PtToPx(PxToPt(px)) == px
  {
  }
}
