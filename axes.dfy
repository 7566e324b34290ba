/** Variable-font axis data: reading a face's axes (`CollectFontAxes`), turning a
    packed tag into text (`TagToString`) and the two capped displays of the axes
    (`BuildAxisTagLine`, `BuildAxisTooltip`). */
module Axes {
  import opened Wrappers
  import opened Fonts

  /** A DirectWrite axis tag: an unsigned 32-bit value. */
  type AxisTag = t: int | 0 <= t < 0x1_0000_0000

  /** Four bytes packed into a 32-bit tag, the first byte most significant. */
  function PackTag(b: seq<Byte>): (t: AxisTag)
    requires |b| == 4
  {
    ((b[0] as int * 0x100 + b[1] as int) * 0x100 + b[2] as int) * 0x100 + b[3] as int
  }

  /** The bytes `buf[0..3]` of `TagToString`: the low byte of the tag shifted
      right by 24, 16, 8 and 0 bits (each shift by 8 is a division by 0x100). */
  function TagBytes(tag: AxisTag): (b: seq<Byte>)
    ensures |b| == 4 && PackTag(b) == tag
  {
    var q1 := tag / 0x100;
    var q2 := q1 / 0x100;
    var q3 := q2 / 0x100;
    assert q3 < 0x100;
    [q3, q2 % 0x100, q1 % 0x100, tag % 0x100]
  }

  /** Unpacking a packed tag gives back its four bytes. */
  lemma TagBytesOfPack(b: seq<Byte>)
    requires |b| == 4
    ensures TagBytes(PackTag(b)) == b
  {
    var t := PackTag(b);
    var q2 := b[0] as int * 0x100 + b[1] as int;
    var q1 := q2 * 0x100 + b[2] as int;
    assert t / 0x100 == q1 && t % 0x100 == b[3];
    assert q1 / 0x100 == q2 && q1 % 0x100 == b[2];
    assert q2 / 0x100 == b[0] && q2 % 0x100 == b[1];
  }

  /** A NUL-terminated buffer read as a string: everything before the first zero byte. */
  function CutAtNul(b: seq<Byte>): (s: seq<Byte>)
    ensures s <= b
    ensures forall i :: 0 <= i < |s| ==> s[i] != 0
    ensures |s| < |b| ==> b[|s|] == 0
  {
    if b == [] || b[0] == 0 then [] else [b[0]] + CutAtNul(b[1..])
  }

  /** `TagToString`: the tag's bytes, most significant first, up to the first zero byte. */
  function TagToString(tag: AxisTag): (s: TagString)
    ensures |s| <= 4 && s <= TagBytes(tag)
    ensures forall i :: 0 <= i < |s| ==> s[i] != 0
    ensures |s| < 4 ==> TagBytes(tag)[|s|] == 0
  {
    CutAtNul(TagBytes(tag))
  }

  /** Four non-zero bytes survive packing and `TagToString` unchanged. */
  lemma TagToStringOfPack(b: seq<Byte>)
    requires |b| == 4 && forall i :: 0 <= i < 4 ==> b[i] != 0
    ensures TagToString(PackTag(b)) == b
  {
    TagBytesOfPack(b);
  }

  /** A face's axis descriptor as `IDWriteFontResource` reports it: the tag of the
      default axis value and the declared range of the same axis. */
  datatype AxisDescriptor = AxisDescriptor(tag: AxisTag, minValue: real, maxValue: real)

  /** The face's font resource: its axes and whether the two bulk queries
      (`GetDefaultFontAxisValues`, `GetFontAxisRanges`) succeed. */
  datatype FontResource = FontResource(axes: seq<AxisDescriptor>, defaultsOk: bool, rangesOk: bool)

  /** An `IDWriteFontFace5`: whether it has variations and, when `GetFontResource`
      succeeds, its resource. */
  datatype FontFace = FontFace(hasVariations: bool, resource: Option<FontResource>)

  /** The axes `CollectFontAxes` copies out of a face: all of them, in resource
      order, when every query succeeds; none otherwise. */
  function ReadableAxes(face: FontFace): (axes: seq<AxisDescriptor>)
    ensures axes != [] ==> face.hasVariations && face.resource.Some? && axes == face.resource.value.axes
    ensures (face.hasVariations && face.resource.Some? &&
             face.resource.value.defaultsOk && face.resource.value.rangesOk) ==> axes == face.resource.value.axes
  {
    if !face.hasVariations || face.resource.None? then []
    else
      var res := face.resource.value;
      if res.defaultsOk && res.rangesOk then res.axes else []
  }

  /** The entry after `CollectFontAxes`: with a face, its tags and ranges are
      rebuilt from the face's readable axes; without one, nothing changes. */
  function WithAxes(item: FontItem, face: Option<FontFace>): FontItem
  {
    if face.None? then item
    else
      var axes := ReadableAxes(face.value);
      item.(axisTags := seq(|axes|, i requires 0 <= i < |axes| => TagToString(axes[i].tag)),
            axisRanges := seq(|axes|, i requires 0 <= i < |axes| =>
                                AxisRange(TagToString(axes[i].tag), axes[i].minValue, axes[i].maxValue)))
  }

  /** `CollectFontAxes`: clears the entry's two axis vectors and refills them in
      parallel, one element per axis of the face, in resource order. */
  method CollectFontAxes(item: FontItem, face: Option<FontFace>) returns (r: FontItem)
    ensures face.None? ==> r == item
    ensures r.displayName == item.displayName && r.filePath == item.filePath && r.isSystemFont == item.isSystemFont
    ensures face.Some? ==> |r.axisTags| == |r.axisRanges| == |ReadableAxes(face.value)|
    ensures face.Some? ==> forall i :: 0 <= i < |r.axisTags| ==>
              r.axisTags[i] == TagToString(ReadableAxes(face.value)[i].tag) &&
              r.axisRanges[i] == AxisRange(r.axisTags[i], ReadableAxes(face.value)[i].minValue,
                                           ReadableAxes(face.value)[i].maxValue)
    ensures r == WithAxes(item, face)
  {
    r := item;
    if face.None? {
      return;
    }
    r := r.(axisTags := [], axisRanges := []);
    var f := face.value;
    if !f.hasVariations || f.resource.None? {
      return;
    }
    var res := f.resource.value;
    var axisCount := |res.axes|;
    if axisCount == 0 || !res.defaultsOk || !res.rangesOk {
      return;
    }
    var i := 0;
    while i < axisCount
      invariant 0 <= i <= axisCount
      invariant r.displayName == item.displayName && r.filePath == item.filePath && r.isSystemFont == item.isSystemFont
      invariant |r.axisTags| == |r.axisRanges| == i
      invariant forall k :: 0 <= k < i ==>
                  r.axisTags[k] == TagToString(res.axes[k].tag) &&
                  r.axisRanges[k] == AxisRange(r.axisTags[k], res.axes[k].minValue, res.axes[k].maxValue)
    {
      var tagStr := TagToString(res.axes[i].tag);
      r := r.(axisTags := r.axisTags + [tagStr],
              axisRanges := r.axisRanges + [AxisRange(tagStr, res.axes[i].minValue, res.axes[i].maxValue)]);
      i := i + 1;
    }
  }

  /** A face without variations, or one whose resource cannot be read, leaves both vectors empty. */
  lemma NoReadableAxesEmpties(item: FontItem, face: FontFace)
    requires !face.hasVariations || face.resource.None? ||
             !face.resource.value.defaultsOk || !face.resource.value.rangesOk
    ensures WithAxes(item, Some(face)).axisTags == [] && WithAxes(item, Some(face)).axisRanges == []
  {
  }

  /** A variable face whose resource and queries all succeed gives every
      axis' tag and range, in resource order, whatever the entry held before. */
  lemma {:induction false} ReadableFaceGivesItsAxes(item: FontItem, face: FontFace)
    requires face.hasVariations && face.resource.Some?
    requires face.resource.value.defaultsOk && face.resource.value.rangesOk
    ensures var axes := face.resource.value.axes;
            var r := WithAxes(item, Some(face));
            && |r.axisTags| == |r.axisRanges| == |axes|
            && forall i :: 0 <= i < |axes| ==>
                 r.axisTags[i] == TagToString(axes[i].tag) &&
                 r.axisRanges[i] == AxisRange(TagToString(axes[i].tag), axes[i].minValue, axes[i].maxValue)
  {
    assert ReadableAxes(face) == face.resource.value.axes;
  }

  //------------------------------------------------------------------
  //  Capped displays
  //------------------------------------------------------------------

  /** `std::wstring(tag.begin(), tag.end())`: each narrow `char` widened to a
      `wchar_t`. `char` is signed, so bytes 0x80..0xFF sign-extend to U+FF80..U+FFFF. */
  function Widen(b: Byte): (c: char)
    ensures b < 0x80 ==> c as int == b
    ensures 0x80 <= b ==> c as int == b + 0xFF00
  {
    if b < 0x80 then b as char else (b + 0xFF00) as char
  }

  function WideTag(t: TagString): (w: string)
    ensures |w| == |t|
  {
    seq(|t|, i requires 0 <= i < |t| => Widen(t[i]))
  }

  /** `if (!acc.empty()) acc += sep; acc += piece;` */
  function AppendPiece(acc: string, sep: string, piece: string): string
  {
    if acc == [] then piece else acc + sep + piece
  }

  /** The accumulator after appending every piece in order with `AppendPiece`. */
  function Accumulate(pieces: seq<string>, sep: string): string
  {
    if pieces == [] then []
    else AppendPiece(Accumulate(pieces[..|pieces| - 1], sep), sep, pieces[|pieces| - 1])
  }

  /** The usual join: the pieces with one separator between neighbours. */
  function Join(pieces: seq<string>, sep: string): string
  {
    if pieces == [] then []
    else if |pieces| == 1 then pieces[0]
    else Join(pieces[..|pieces| - 1], sep) + sep + pieces[|pieces| - 1]
  }

  /** How many items both displays show before they stop. */
  const MaxShown: nat := 15

  /** The first `MaxShown` pieces accumulated, plus `ellipsis` when there were more. */
  function Capped(pieces: seq<string>, sep: string, ellipsis: string): string
  {
    if |pieces| > MaxShown then Accumulate(pieces[..MaxShown], sep) + ellipsis
    else Accumulate(pieces, sep)
  }

  /** Accumulating non-empty pieces is the usual join. */
  lemma {:induction false} AccumulateIsJoin(pieces: seq<string>, sep: string)
    requires forall i :: 0 <= i < |pieces| ==> pieces[i] != []
    ensures Accumulate(pieces, sep) == Join(pieces, sep)
    ensures pieces != [] ==> Accumulate(pieces, sep) != []
  {
    if pieces != [] {
      var init := pieces[..|pieces| - 1];
      AccumulateIsJoin(init, sep);
    }
  }

  /** With non-empty pieces, a capped display is the join of the first (at most
      fifteen) pieces, followed by the ellipsis exactly when some were left out. */
  lemma CappedShape(pieces: seq<string>, sep: string, ellipsis: string)
    requires forall i :: 0 <= i < |pieces| ==> pieces[i] != []
    ensures |pieces| <= MaxShown ==> Capped(pieces, sep, ellipsis) == Join(pieces, sep)
    ensures |pieces| > MaxShown ==> Capped(pieces, sep, ellipsis) == Join(pieces[..MaxShown], sep) + ellipsis
  {
    if |pieces| > MaxShown {
      AccumulateIsJoin(pieces[..MaxShown], sep);
    } else {
      AccumulateIsJoin(pieces, sep);
    }
  }

  function WideTags(tags: seq<TagString>): (w: seq<string>)
    ensures |w| == |tags|
  {
    seq(|tags|, i requires 0 <= i < |tags| => WideTag(tags[i]))
  }

  /** The line `BuildAxisTagLine` produces: nothing for no axes, otherwise the
      first fifteen tags joined by spaces and " ..." when there are more. */
  function TagLine(tags: seq<TagString>): string
  {
    if tags == [] then [] else Capped(WideTags(tags), " ", " ...")
  }

  /** `BuildAxisTagLine`. */
  method BuildAxisTagLine(item: FontItem) returns (line: string)
    ensures line == TagLine(item.axisTags)
  {
    var tags := item.axisTags;
    if |tags| == 0 {
      return [];
    }
    line := [];
    var count := 0;
    var k := 0;
    while k < |tags|
      invariant 0 <= k <= |tags| && count == k && count <= MaxShown
      invariant line == Accumulate(WideTags(tags[..k]), " ")
    {
      if count >= MaxShown {
        assert WideTags(tags[..k]) == WideTags(tags)[..MaxShown];
        line := line + " ...";
        break;
      }
      var tagW := WideTag(tags[k]);
      assert WideTags(tags[..k + 1])[..k] == WideTags(tags[..k]);
      if line != [] {
        line := line + " ";
      }
      line := line + tagW;
      count := count + 1;
      k := k + 1;
    }
    if k == |tags| {
      assert tags[..k] == tags;
    }
  }

  /** When every tag is non-empty, the tag line is the space-separated tags,
      at most fifteen of them, with " ..." when there are more. */
  lemma TagLineShape(tags: seq<TagString>)
    requires forall i :: 0 <= i < |tags| ==> tags[i] != []
    ensures |tags| <= MaxShown ==> TagLine(tags) == Join(WideTags(tags), " ")
    ensures |tags| > MaxShown ==> TagLine(tags) == Join(WideTags(tags)[..MaxShown], " ") + " ..."
  {
    CappedShape(WideTags(tags), " ", " ...");
  }

  /** The label text for an entry without axes. */
  const NoAxesText: string := "可変フォント軸はありません"

  /** The two lookups the tooltip's format string needs and this model does not
      spell out: the axis' human-readable name from the external tag table, and
      the `%.1f` rendering of a floating-point value. */
  datatype AxisLabels = AxisLabels(humanName: TagString -> TagString, number: real -> string)

  /** One tooltip line, `"%ls %ls %.1f-%.1f"` of tag, human name, minimum and maximum. */
  function TooltipLine(axis: AxisRange, labels: AxisLabels): (line: string)
    ensures line != []
  {
    WideTag(axis.tag) + " " + WideTag(labels.humanName(axis.tag)) + " " +
    labels.number(axis.minValue) + "-" + labels.number(axis.maxValue)
  }

  function TooltipLines(ranges: seq<AxisRange>, labels: AxisLabels): (lines: seq<string>)
    ensures |lines| == |ranges|
  {
    seq(|ranges|, i requires 0 <= i < |ranges| => TooltipLine(ranges[i], labels))
  }

  /** The text `BuildAxisTooltip` produces. */
  function Tooltip(item: FontItem, labels: AxisLabels): string
  {
    if item.axisTags == [] then NoAxesText
    else Capped(TooltipLines(item.axisRanges, labels), "\n", "...")
  }

  /** `BuildAxisTooltip`: checks the tags for emptiness, then walks the ranges. */
  method BuildAxisTooltip(item: FontItem, labels: AxisLabels) returns (tip: string)
    ensures tip == Tooltip(item, labels)
  {
    if item.axisTags == [] {
      return NoAxesText;
    }
    var ranges := item.axisRanges;
    tip := [];
    var lines := 0;
    var k := 0;
    while k < |ranges|
      invariant 0 <= k <= |ranges| && lines == k && lines <= MaxShown
      invariant tip == Accumulate(TooltipLines(ranges[..k], labels), "\n")
    {
      if lines >= MaxShown {
        assert TooltipLines(ranges[..k], labels) == TooltipLines(ranges, labels)[..MaxShown];
        tip := tip + "...";
        break;
      }
      var buf := TooltipLine(ranges[k], labels);
      assert TooltipLines(ranges[..k + 1], labels)[..k] == TooltipLines(ranges[..k], labels);
      if tip != [] {
        tip := tip + "\n";
      }
      tip := tip + buf;
      lines := lines + 1;
      k := k + 1;
    }
    if k == |ranges| {
      assert ranges[..k] == ranges;
    }
  }

  /** For an entry with axes, the tooltip is one line per axis range, at most
      fifteen, separated by line breaks, and "..." right after the fifteenth
      line when there are more. */
  lemma TooltipShape(item: FontItem, labels: AxisLabels)
    requires item.axisTags != []
    ensures |item.axisRanges| <= MaxShown ==>
              Tooltip(item, labels) == Join(TooltipLines(item.axisRanges, labels), "\n")
    ensures |item.axisRanges| > MaxShown ==>
              Tooltip(item, labels) == Join(TooltipLines(item.axisRanges, labels)[..MaxShown], "\n") + "..."
  {
    CappedShape(TooltipLines(item.axisRanges, labels), "\n", "...");
  }
}
