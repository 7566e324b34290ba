/**
  Object aliases handed to the host editor: the alias length in frames and
  the two fixed templates (a Variable Font Text object and a standard Text
  object, each followed by the standard drawing filter).

  An alias is a sequence of sections; a section has a name and `key=value`
  entries. It is written out as `[name]` lines followed by `key=value` lines,
  each ended by a newline. Text is kept as Unicode strings.
*/
module Alias {
  import opened Wrappers
  import opened Fonts

  // ---------------------------------------------------------------- frame length

  /** The part of the host's edit information the length depends on: the
      frame rate as the fraction rate/scale. */
  datatype EditInfo = EditInfo(rate: int, scale: int)

  /** The smallest integer not below `x`. */
  function Ceil(x: real): (c: int)
    ensures c as real >= x && (c - 1) as real < x
  {
    -((-x).Floor)
  }

  /** `ComputeAliasLengthFramesFromEditInfo`, with the seconds an exact
      rational: 1 when the duration is not positive, -1 when the frame rate is
      unusable, otherwise the duration in frames rounded up, at least 1. */
  function AliasLengthFrames(info: EditInfo, seconds: real): (len: int)
    ensures !(seconds > 0.0) ==> len == 1
    ensures seconds > 0.0 && (info.rate <= 0 || info.scale <= 0) ==> len == -1
    ensures seconds > 0.0 && info.rate > 0 && info.scale > 0 ==>
              var frames := seconds * info.rate as real / info.scale as real;
              len >= 1 && len as real >= frames && (len - 1) as real < frames
  {
    if !(seconds > 0.0) then 1
    else if info.rate <= 0 || info.scale <= 0 then -1
    else
      var len := Ceil(seconds * info.rate as real / info.scale as real);
      if len < 1 then 1 else len
  }

  /** With a positive duration and a usable rate the frame count is already
      positive, so the final clamp to 1 never changes the result. */
  lemma ClampNeverFires(info: EditInfo, seconds: real)
    requires seconds > 0.0 && info.rate > 0 && info.scale > 0
    ensures AliasLengthFrames(info, seconds) == Ceil(seconds * info.rate as real / info.scale as real)
  {
    // both are integers in [frames, frames + 1)
    var frames := seconds * info.rate as real / info.scale as real;
    var len := AliasLengthFrames(info, seconds);
    var c := Ceil(frames);
    assert len as real >= frames && (len - 1) as real < frames;
    assert c as real >= frames && (c - 1) as real < frames;
  }

  const DefaultAliasSeconds: real := 1.1
  const FallbackAliasFrames: int := 182

  /** The length an object gets in `CreateVariableFontObject`: the computed
      length when the host provides its edit information and that length is
      positive, the fallback otherwise. */
  function FrameLengthFor(info: Option<EditInfo>): (len: int)
    ensures len >= 1
    ensures info.None? ==> len == FallbackAliasFrames
    ensures info.Some? && (info.value.rate <= 0 || info.value.scale <= 0) ==> len == FallbackAliasFrames
    ensures info.Some? && info.value.rate > 0 && info.value.scale > 0 ==>
              len == AliasLengthFrames(info.value, DefaultAliasSeconds)
  {
    if info.None? then FallbackAliasFrames
    else
      var computed := AliasLengthFrames(info.value, DefaultAliasSeconds);
      if computed > 0 then computed else FallbackAliasFrames
  }

  /** At 30 frames per second, 1.1 seconds is 33 frames. */
  lemma ThirtyFpsExample()
    ensures FrameLengthFor(Some(EditInfo(30, 1))) == 33
  {
    assert DefaultAliasSeconds * 30 as real / 1 as real == 33.0;
  }

  // ---------------------------------------------------------------- decimal numbers

  function DigitChar(d: nat): (c: char)
    requires d < 10
    ensures '0' <= c <= '9' && c as int - '0' as int == d
  {
    (d + '0' as int) as char
  }

  predicate AllDigits(s: string)
  {
    forall i :: 0 <= i < |s| ==> '0' <= s[i] <= '9'
  }

  /** The value of a string of decimal digits. */
  function DecimalValue(s: string): nat
    requires AllDigits(s)
  {
    if s == [] then 0 else DecimalValue(s[..|s| - 1]) * 10 + (s[|s| - 1] as int - '0' as int)
  }

  /** A number written in decimal, as a stream writes an `int`. */
  function Decimal(n: nat): (s: string)
    ensures s != [] && AllDigits(s)
    ensures |s| > 1 ==> s[0] != '0'
  {
    if n < 10 then [DigitChar(n)] else Decimal(n / 10) + [DigitChar(n % 10)]
  }

  /** Reading the digits back gives the number. */
  lemma {:induction false} DecimalRoundTrip(n: nat)
    ensures DecimalValue(Decimal(n)) == n
  {
    if n >= 10 {
      var s := Decimal(n);
      assert s[..|s| - 1] == Decimal(n / 10);
      DecimalRoundTrip(n / 10);
    }
  }

  // ---------------------------------------------------------------- alias structure

  datatype Entry = Entry(key: string, value: string)
  datatype Section = Section(name: string, entries: seq<Entry>)
  type AliasText = seq<Section>

  /** One line of alias text, without its newline. */
  datatype Line = Header(name: string) | Item(key: string, value: string)

  function SectionLines(s: Section): seq<Line>
  {
    [Header(s.name)] + seq(|s.entries|, i requires 0 <= i < |s.entries| => Item(s.entries[i].key, s.entries[i].value))
  }

  function Lines(a: AliasText): seq<Line>
  {
    if a == [] then [] else SectionLines(a[0]) + Lines(a[1..])
  }

  function LineText(l: Line): string
  {
    match l
    case Header(name) => "[" + name + "]"
    case Item(key, value) => key + "=" + value
  }

  function LinesText(ls: seq<Line>): string
  {
    if ls == [] then [] else LineText(ls[0]) + "\n" + LinesText(ls[1..])
  }

  /** The text of an alias, as handed to the host. */
  function Render(a: AliasText): string
  {
    LinesText(Lines(a))
  }

  /** The first entry with `key` in the first section named `section`. */
  function Lookup(a: AliasText, section: string, key: string): Option<string>
  {
    if a == [] then None
    else if a[0].name == section then FindKey(a[0].entries, key)
    else Lookup(a[1..], section, key)
  }

  function FindKey(entries: seq<Entry>, key: string): (r: Option<string>)
    ensures r.Some? ==> Entry(key, r.value) in entries
  {
    if entries == [] then None
    else if entries[0].key == key then Some(entries[0].value)
    else FindKey(entries[1..], key)
  }

  lemma {:induction false} FindKeyAppend(a: seq<Entry>, b: seq<Entry>, key: string)
    ensures FindKey(a + b, key) == if FindKey(a, key).Some? then FindKey(a, key) else FindKey(b, key)
  {
    if a != [] {
      assert (a + b)[0] == a[0];
      assert (a + b)[1..] == a[1..] + b;
      FindKeyAppend(a[1..], b, key);
    } else {
      assert a + b == b;
    }
  }

  // ---------------------------------------------------------------- reading alias text back

  /** The index of the first `c` in `s`, or `|s|`: where a line ends (`c` a
      newline) or where a key ends (`c` an equals sign). */
  function IndexOf(s: string, c: char): (i: nat)
    ensures i <= |s|
    ensures forall j :: 0 <= j < i ==> s[j] != c
    ensures i < |s| ==> s[i] == c
  {
    if s == [] || s[0] == c then 0 else 1 + IndexOf(s[1..], c)
  }

  function ParseLine(s: string): Line
  {
    if |s| >= 2 && s[0] == '[' && s[|s| - 1] == ']' then Header(s[1..|s| - 1])
    else
      var k := IndexOf(s, '=');
      Item(s[..k], if k < |s| then s[k + 1..] else [])
  }

  function ParseLines(s: string): seq<Line>
    decreases |s|
  {
    if s == [] then []
    else
      var e := IndexOf(s, '\n');
      [ParseLine(s[..e])] + ParseLines(if e < |s| then s[e + 1..] else [])
  }

  /** The entry lines at the front of `ls`. */
  function LeadingItems(ls: seq<Line>): (n: nat)
    ensures n <= |ls|
    ensures forall j :: 0 <= j < n ==> ls[j].Item?
  {
    if ls == [] || ls[0].Header? then 0 else 1 + LeadingItems(ls[1..])
  }

  /** Lines grouped into sections; entry lines before the first header are dropped. */
  function Group(ls: seq<Line>): AliasText
    decreases |ls|
  {
    if ls == [] then []
    else if ls[0].Item? then Group(ls[1..])
    else
      var n := LeadingItems(ls[1..]);
      [Section(ls[0].name, seq(n, i requires 0 <= i < n => Entry(ls[1 + i].key, ls[1 + i].value)))] +
      Group(ls[1 + n..])
  }

  function Parse(s: string): AliasText
  {
    Group(ParseLines(s))
  }

  /** What makes alias text readable: no newline anywhere, no `=` in a key,
      and no key that starts with `[`. */
  predicate NoNewline(s: string) { forall i :: 0 <= i < |s| ==> s[i] != '\n' }
  predicate NoEquals(s: string) { forall i :: 0 <= i < |s| ==> s[i] != '=' }

  predicate EntryOk(e: Entry)
  {
    NoNewline(e.key) && NoNewline(e.value) && NoEquals(e.key) && (e.key != [] ==> e.key[0] != '[')
  }

  predicate SectionOk(s: Section)
  {
    NoNewline(s.name) && AllOk(s.entries)
  }

  predicate WellFormed(a: AliasText)
  {
    forall i :: 0 <= i < |a| ==> SectionOk(a[i])
  }

  predicate LineOk(l: Line)
  {
    match l
    case Header(name) => NoNewline(name)
    case Item(key, value) => EntryOk(Entry(key, value))
  }

  lemma {:induction false} ParseLineText(l: Line)
    requires LineOk(l)
    ensures NoNewline(LineText(l))
    ensures ParseLine(LineText(l)) == l
  {
    match l
    case Header(name) =>
      var s := LineText(l);
      assert s[1..|s| - 1] == name;
    case Item(key, value) =>
      var s := LineText(l);
      if key != [] {
        assert s[0] == key[0];
      } else {
        assert s[0] == '=';
      }
      assert s[..|key|] == key;
      assert s[|key|] == '=';
      assert IndexOf(s, '=') == |key|;
      assert s[|key| + 1..] == value;
  }

  /** A line without newlines, a newline and the rest split back at that newline. */
  lemma SplitAtNewline(t: string, rest: string)
    requires NoNewline(t)
    ensures var s := t + "\n" + rest;
            IndexOf(s, '\n') == |t| && s[..|t|] == t && s[|t| + 1..] == rest
  {
    var s := t + "\n" + rest;
    assert s[|t|] == '\n';
    assert s[..|t|] == t;
    assert s[|t| + 1..] == rest;
  }

  lemma {:induction false} ParseLinesText(ls: seq<Line>)
    requires forall i :: 0 <= i < |ls| ==> LineOk(ls[i])
    ensures ParseLines(LinesText(ls)) == ls
  {
    if ls != [] {
      var t := LineText(ls[0]);
      var rest := LinesText(ls[1..]);
      ParseLineText(ls[0]);
      SplitAtNewline(t, rest);
      assert LinesText(ls) == t + "\n" + rest;
      ParseLinesText(ls[1..]);
    }
  }

  lemma {:induction false} LinesOk(a: AliasText)
    requires WellFormed(a)
    ensures forall i :: 0 <= i < |Lines(a)| ==> LineOk(Lines(a)[i])
  {
    if a != [] {
      var first := SectionLines(a[0]);
      assert SectionOk(a[0]);
      forall i | 0 <= i < |first|
        ensures LineOk(first[i])
      {
        if i > 0 {
          assert a[0].entries[i - 1] in a[0].entries;
        }
      }
      LinesOk(a[1..]);
    }
  }

  lemma {:induction false} LeadingItemsOfSection(s: Section, rest: seq<Line>)
    requires rest == [] || rest[0].Header?
    ensures var ls := SectionLines(s)[1..] + rest;
            LeadingItems(ls) == |s.entries|
    decreases |s.entries|
  {
    var ls := SectionLines(s)[1..] + rest;
    if s.entries != [] {
      var s' := Section(s.name, s.entries[1..]);
      assert ls[1..] == SectionLines(s')[1..] + rest;
      LeadingItemsOfSection(s', rest);
    } else {
      assert ls == rest;
    }
  }

  lemma {:induction false} GroupLines(a: AliasText)
    ensures Group(Lines(a)) == a
  {
    if a != [] {
      var ls := Lines(a);
      var first := SectionLines(a[0]);
      var rest := Lines(a[1..]);
      assert ls == first + rest;
      assert ls[0] == Header(a[0].name);
      assert rest == [] || rest[0].Header?;
      LeadingItemsOfSection(a[0], rest);
      assert ls[1..] == first[1..] + rest;
      var n := |a[0].entries|;
      assert LeadingItems(ls[1..]) == n;
      assert ls[1 + n..] == rest;
      assert seq(n, i requires 0 <= i < n => Entry(ls[1 + i].key, ls[1 + i].value)) == a[0].entries;
      GroupLines(a[1..]);
    }
  }

  /** Written-out alias text reads back as the alias it was written from. */
  lemma AliasRoundTrip(a: AliasText)
    requires WellFormed(a)
    ensures Parse(Render(a)) == a
  {
    LinesOk(a);
    ParseLinesText(Lines(a));
    GroupLines(a);
  }

  // ---------------------------------------------------------------- the two templates

  /** The length written into an alias: a non-positive length is replaced by the fallback. */
  function EffectiveLength(frameLength: int): (n: nat)
    ensures n >= 1
    ensures frameLength <= 0 ==> n == FallbackAliasFrames
    ensures frameLength > 0 ==> n == frameLength
  {
    if frameLength <= 0 then FallbackAliasFrames else frameLength
  }

  /** `[Object]` with the object's frame range, starting at frame 0. */
  function ObjectSection(frameLength: int): Section
  {
    Section("Object", [Entry("frame", "0," + Decimal(EffectiveLength(frameLength)))])
  }

  /** `[Object.1]`: the standard drawing filter at its defaults, shared by both templates. */
  const DrawSection := Section("Object.1", [Entry("effect.name", "標準描画")] + DrawPosition + DrawRotation + DrawBlend)

  const DrawPosition: seq<Entry> := [
    Entry("X", "0.00"), Entry("Y", "0.00"), Entry("Z", "0.00"), Entry("Group", "1"),
    Entry("中心X", "0.00"), Entry("中心Y", "0.00"), Entry("中心Z", "0.00")]
  const DrawRotation: seq<Entry> := [
    Entry("X軸回転", "0.00"), Entry("Y軸回転", "0.00"), Entry("Z軸回転", "0.00")]
  const DrawBlend: seq<Entry> := [
    Entry("拡大率", "100.000"), Entry("縦横比", "0.000"), Entry("透明度", "0.00"), Entry("合成モード", "通常")]

  /** The fixed settings of the Variable Font Text effect, between the font and the text. */
  const VariableFontStyle: seq<Entry> := VfLook + VfShadow + VfOutline + VfAxes + VfParametricAxes + VfLayout

  const VfLook: seq<Entry> := [
    Entry("サイズ", "80.0"), Entry("文字色", "ffffff"), Entry("B", "0"), Entry("I", "0"), Entry("字間", "0.0")]
  const VfShadow: seq<Entry> := [
    Entry("影設定.hide", "1"), Entry("影を表示", "0"), Entry("影色", "000000"),
    Entry("影X", "0.0"), Entry("影Y", "0.0"), Entry("影濃度", "100"), Entry("影ぼかし", "0.0")]
  const VfOutline: seq<Entry> := [
    Entry("縁取り設定.hide", "1"), Entry("縁取りを表示", "0"), Entry("縁取り色", "000000"),
    Entry("縁取り幅", "5.0"), Entry("縁取りスタイル", "丸"), Entry("切り抜き", "0")]
  const VfAxes: seq<Entry> := [
    Entry("Weight", "400"), Entry("Width", "100"), Entry("Slant", "0.0"), Entry("Optical Size", "12.0"),
    Entry("Italic Axis", "0.0"), Entry("Grade (GRAD)", "0.0")]
  const VfParametricAxes: seq<Entry> := [
    Entry("XTRA", "0"), Entry("XOPQ", "0"), Entry("YOPQ", "0"), Entry("YTLC", "0"),
    Entry("YTUC", "0"), Entry("YTAS", "0"), Entry("YTDE", "0"), Entry("YTFI", "0")]
  const VfLayout: seq<Entry> := [
    Entry("軸更新モード", "リアルタイム"), Entry("横幅", "0"), Entry("縦幅", "0"),
    Entry("文字揃え", "中央揃え[中]"), Entry("行間", "0.0"),
    Entry("アニメーション.hide", "1"), Entry("表示速度", "0.0"), Entry("文字毎に個別オブジェクト", "1")]

  const FontFileKey := "フォントファイル"
  const FontKey := "フォント"
  const TextKey := "テキスト"

  /** The Variable Font Text object: a system entry is named by its display
      name with no file; a folder entry is named by its file with no name. */
  function VariableFontAlias(item: FontItem, text: string, frameLength: int): AliasText
  {
    [ObjectSection(frameLength), VariableFontObject(item, text), DrawSection]
  }

  /** `[Object.0]` of the Variable Font Text alias. */
  function VariableFontObject(item: FontItem, text: string): Section
  {
    Section("Object.0", VariableFontIdentity(item) + VariableFontStyle + [Entry(TextKey, text)])
  }

  /** The effect name and the font identity that open `[Object.0]`. */
  function VariableFontIdentity(item: FontItem): seq<Entry>
  {
    [Entry("effect.name", "Variable Font Text"),
     Entry(FontFileKey, if item.isSystemFont then "" else item.filePath),
     Entry(FontKey, if item.isSystemFont then item.displayName else "")]
  }

  /** The fixed settings of the standard Text effect, in three runs around the
      font and the text. */
  const TextStyleHead: seq<Entry> := [
    Entry("サイズ", "80.0"), Entry("字間", "0.00"), Entry("行間", "0.00"), Entry("表示速度", "0.00")]
  const TextStyleMiddle: seq<Entry> := [
    Entry("文字色", "ffffff"), Entry("影・縁色", "000000"), Entry("文字装飾", "標準文字"),
    Entry("文字揃え", "中央揃え[中]"), Entry("B", "0"), Entry("I", "0")]
  const TextStyleTail: seq<Entry> := [
    Entry("文字毎に個別オブジェクト", "0"), Entry("自動スクロール", "0"), Entry("移動座標上に表示", "0"),
    Entry("オブジェクトの長さを自動調節", "0")]

  /** The standard Text object: always named by the display name. */
  function TextAlias(item: FontItem, text: string, frameLength: int): AliasText
  {
    [ObjectSection(frameLength), TextObject(item, text), DrawSection]
  }

  /** `[Object.0]` of the standard Text alias. */
  function TextObject(item: FontItem, text: string): Section
  {
    Section("Object.0",
            [Entry("effect.name", TextKey)] + TextStyleHead + [Entry(FontKey, item.displayName)] +
            TextStyleMiddle + [Entry(TextKey, text)] + TextStyleTail)
  }

  /** `BuildVFAliasFromSelection`: the text of the Variable Font Text alias. */
  function BuildVFAliasFromSelection(item: FontItem, text: string, frameLength: int): string
  {
    Render(VariableFontAlias(item, text, frameLength))
  }

  /** `BuildAliasFromSelection`: the text of the standard Text alias. */
  function BuildAliasFromSelection(item: FontItem, text: string, frameLength: int): string
  {
    Render(TextAlias(item, text, frameLength))
  }

  /** The host reads each alias text back as the template it was written from,
      as long as the substituted strings contain no newline. */
  lemma AliasTextsReadBack(item: FontItem, text: string, frameLength: int)
    requires AliasInputsOk(item, text)
    ensures Parse(BuildVFAliasFromSelection(item, text, frameLength)) == VariableFontAlias(item, text, frameLength)
    ensures Parse(BuildAliasFromSelection(item, text, frameLength)) == TextAlias(item, text, frameLength)
  {
    VariableFontAliasWellFormed(item, text, frameLength);
    AliasRoundTrip(VariableFontAlias(item, text, frameLength));
    TextAliasWellFormed(item, text, frameLength);
    AliasRoundTrip(TextAlias(item, text, frameLength));
  }

  /** The values the host finds in the Variable Font Text alias: the frame
      range, the effect, the font identity (display name for a system entry,
      file path for a folder entry, the other one empty) and the text. */
  lemma VariableFontAliasContents(item: FontItem, text: string, frameLength: int)
    ensures var a := VariableFontAlias(item, text, frameLength);
            && Lookup(a, "Object", "frame") == Some("0," + Decimal(EffectiveLength(frameLength)))
            && Lookup(a, "Object.0", "effect.name") == Some("Variable Font Text")
            && Lookup(a, "Object.0", FontFileKey) == Some(if item.isSystemFont then "" else item.filePath)
            && Lookup(a, "Object.0", FontKey) == Some(if item.isSystemFont then item.displayName else "")
            && Lookup(a, "Object.0", TextKey) == Some(text)
  {
    var obj := VariableFontObject(item, text);
    LookupThree(ObjectSection(frameLength), obj, DrawSection, "Object", "frame");
    LookupThree(ObjectSection(frameLength), obj, DrawSection, "Object.0", "effect.name");
    LookupThree(ObjectSection(frameLength), obj, DrawSection, "Object.0", FontFileKey);
    LookupThree(ObjectSection(frameLength), obj, DrawSection, "Object.0", FontKey);
    LookupThree(ObjectSection(frameLength), obj, DrawSection, "Object.0", TextKey);
    VariableFontIdentityFound(item, text);
    VariableFontTextFound(item, text);
  }

  lemma VariableFontIdentityFound(item: FontItem, text: string)
    ensures var es := VariableFontObject(item, text).entries;
            && FindKey(es, "effect.name") == Some("Variable Font Text")
            && FindKey(es, FontFileKey) == Some(if item.isSystemFont then "" else item.filePath)
            && FindKey(es, FontKey) == Some(if item.isSystemFont then item.displayName else "")
  {
    var head := VariableFontIdentity(item);
    var rest := VariableFontStyle + [Entry(TextKey, text)];
    assert VariableFontObject(item, text).entries == head + rest;
    assert "effect.name" != FontKey && FontFileKey != FontKey && "effect.name" != FontFileKey;
    FindKeyThree(head[0], head[1], head[2], "effect.name");
    FindKeyThree(head[0], head[1], head[2], FontFileKey);
    FindKeyThree(head[0], head[1], head[2], FontKey);
    FindKeyAppend(head, rest, "effect.name");
    FindKeyAppend(head, rest, FontFileKey);
    FindKeyAppend(head, rest, FontKey);
  }

  lemma VariableFontTextFound(item: FontItem, text: string)
    ensures FindKey(VariableFontObject(item, text).entries, TextKey) == Some(text)
  {
    var head := VariableFontIdentity(item);
    FindKeyAppend(head + VariableFontStyle, [Entry(TextKey, text)], TextKey);
    FindKeyAppend(head, VariableFontStyle, TextKey);
    VariableFontStyleKeys();
    FindKeyAbsent(VariableFontStyle, TextKey);
  }

  /** The values the host finds in the standard Text alias: the frame range,
      the effect, the display name as the font, and the text. */
  lemma TextAliasContents(item: FontItem, text: string, frameLength: int)
    ensures var a := TextAlias(item, text, frameLength);
            && Lookup(a, "Object", "frame") == Some("0," + Decimal(EffectiveLength(frameLength)))
            && Lookup(a, "Object.0", "effect.name") == Some(TextKey)
            && Lookup(a, "Object.0", FontKey) == Some(item.displayName)
            && Lookup(a, "Object.0", TextKey) == Some(text)
  {
    var obj := TextObject(item, text);
    LookupThree(ObjectSection(frameLength), obj, DrawSection, "Object", "frame");
    LookupThree(ObjectSection(frameLength), obj, DrawSection, "Object.0", "effect.name");
    LookupThree(ObjectSection(frameLength), obj, DrawSection, "Object.0", FontKey);
    LookupThree(ObjectSection(frameLength), obj, DrawSection, "Object.0", TextKey);
    TextObjectFound(item, text);
  }

  lemma TextObjectFound(item: FontItem, text: string)
    ensures var es := TextObject(item, text).entries;
            && FindKey(es, "effect.name") == Some(TextKey)
            && FindKey(es, FontKey) == Some(item.displayName)
            && FindKey(es, TextKey) == Some(text)
  {
    var e0 := [Entry("effect.name", TextKey)];
    var font := [Entry(FontKey, item.displayName)];
    var txt := [Entry(TextKey, text)];
    var afterFont := TextStyleMiddle + (txt + TextStyleTail);
    assert TextObject(item, text).entries == e0 + (TextStyleHead + (font + afterFont));
    TextStyleKeys();
    FindKeyAppend(e0, TextStyleHead + (font + afterFont), "effect.name");
    FindKeyAppend(e0, TextStyleHead + (font + afterFont), FontKey);
    FindKeyAppend(TextStyleHead, font + afterFont, FontKey);
    FindKeyAbsent(TextStyleHead, FontKey);
    FindKeyAppend(font, afterFont, FontKey);
    FindKeyAppend(e0, TextStyleHead + (font + afterFont), TextKey);
    FindKeyAppend(TextStyleHead, font + afterFont, TextKey);
    FindKeyAbsent(TextStyleHead, TextKey);
    FindKeyAppend(font, afterFont, TextKey);
    FindKeyAppend(TextStyleMiddle, txt + TextStyleTail, TextKey);
    FindKeyAbsent(TextStyleMiddle, TextKey);
    FindKeyAppend(txt, TextStyleTail, TextKey);
  }

  /** Both aliases end with the same `[Object.1]` drawing section, and its
      settings are found under the same keys in both. */
  lemma AliasesShareDrawSection(item: FontItem, text: string, frameLength: int, key: string)
    ensures VariableFontAlias(item, text, frameLength)[2] == TextAlias(item, text, frameLength)[2] == DrawSection
    ensures Lookup(VariableFontAlias(item, text, frameLength), "Object.1", key) ==
            Lookup(TextAlias(item, text, frameLength), "Object.1", key) == FindKey(DrawSection.entries, key)
  {
    LookupThree(ObjectSection(frameLength), VariableFontObject(item, text), DrawSection, "Object.1", key);
    LookupThree(ObjectSection(frameLength), TextObject(item, text), DrawSection, "Object.1", key);
  }

  /** Looking a key up in a three-section alias. */
  lemma LookupThree(s0: Section, s1: Section, s2: Section, section: string, key: string)
    ensures Lookup([s0, s1, s2], section, key) ==
            if s0.name == section then FindKey(s0.entries, key)
            else if s1.name == section then FindKey(s1.entries, key)
            else if s2.name == section then FindKey(s2.entries, key)
            else None
  {
    var a := [s0, s1, s2];
    assert a[1..] == [s1, s2] && a[1..][1..] == [s2] && a[1..][1..][1..] == [];
    assert Lookup(a[1..][1..][1..], section, key) == None;
    assert Lookup(a[1..][1..], section, key) == if s2.name == section then FindKey(s2.entries, key) else None;
    assert Lookup(a[1..], section, key) ==
           if s1.name == section then FindKey(s1.entries, key) else Lookup(a[1..][1..], section, key);
  }

  /** Looking a key up in three entries. */
  lemma FindKeyThree(e0: Entry, e1: Entry, e2: Entry, key: string)
    ensures FindKey([e0, e1, e2], key) ==
            if e0.key == key then Some(e0.value)
            else if e1.key == key then Some(e1.value)
            else if e2.key == key then Some(e2.value)
            else None
  {
    var es := [e0, e1, e2];
    assert es[1..] == [e1, e2] && es[1..][1..] == [e2] && es[1..][1..][1..] == [];
    assert FindKey(es[1..][1..][1..], key) == None;
    assert FindKey(es[1..][1..], key) == if e2.key == key then Some(e2.value) else None;
    assert FindKey(es[1..], key) ==
           if e1.key == key then Some(e1.value) else FindKey(es[1..][1..], key);
  }

  lemma FindKeyAbsent(es: seq<Entry>, key: string)
    requires forall e | e in es :: e.key != key
    ensures FindKey(es, key) == None
  {
    if es != [] {
      assert es[0] in es;
      FindKeyAbsent(es[1..], key);
    }
  }

  lemma VariableFontStyleKeys()
    ensures forall e | e in VariableFontStyle :: e.key != TextKey
  {
  }

  lemma TextStyleKeys()
    ensures forall e | e in TextStyleHead :: e.key != TextKey && e.key != FontKey
    ensures forall e | e in TextStyleMiddle :: e.key != TextKey
  {
  }

  /** The substituted strings stay on their lines. */
  predicate AliasInputsOk(item: FontItem, text: string)
  {
    NoNewline(text) && NoNewline(item.displayName) && NoNewline(item.filePath)
  }

  lemma VariableFontAliasWellFormed(item: FontItem, text: string, frameLength: int)
    ensures AliasInputsOk(item, text) ==> WellFormed(VariableFontAlias(item, text, frameLength))
  {
    if AliasInputsOk(item, text) {
      ObjectSectionOk(frameLength);
      VariableFontObjectOk(item, text);
      DrawSectionOk();
    }
  }

  lemma VariableFontObjectOk(item: FontItem, text: string)
    requires AliasInputsOk(item, text)
    ensures SectionOk(VariableFontObject(item, text))
  {
    var head := VariableFontIdentity(item);
    assert EntryOk(head[0]) && EntryOk(head[1]) && EntryOk(head[2]);
    assert AllOk(head);
    VariableFontStyleOk();
    AllOkAppend(head, VariableFontStyle);
    AllOkAppend(head + VariableFontStyle, [Entry(TextKey, text)]);
  }

  lemma TextAliasWellFormed(item: FontItem, text: string, frameLength: int)
    ensures AliasInputsOk(item, text) ==> WellFormed(TextAlias(item, text, frameLength))
  {
    if AliasInputsOk(item, text) {
      ObjectSectionOk(frameLength);
      TextObjectOk(item, text);
      DrawSectionOk();
    }
  }

  lemma TextObjectOk(item: FontItem, text: string)
    requires AliasInputsOk(item, text)
    ensures SectionOk(TextObject(item, text))
  {
    var e0 := [Entry("effect.name", TextKey)];
    var font := [Entry(FontKey, item.displayName)];
    var txt := [Entry(TextKey, text)];
    assert AllOk(e0) && AllOk(font) && AllOk(txt);
    TextStyleHeadOk();
    TextStyleMiddleOk();
    TextStyleTailOk();
    AllOkAppend(e0, TextStyleHead);
    AllOkAppend(e0 + TextStyleHead, font);
    AllOkAppend(e0 + TextStyleHead + font, TextStyleMiddle);
    AllOkAppend(e0 + TextStyleHead + font + TextStyleMiddle, txt);
    AllOkAppend(e0 + TextStyleHead + font + TextStyleMiddle + txt, TextStyleTail);
  }

  lemma ObjectSectionOk(frameLength: int)
    ensures SectionOk(ObjectSection(frameLength))
  {
    var d := Decimal(EffectiveLength(frameLength));
    var v := "0," + d;
    assert forall i :: 0 <= i < |v| ==> v[i] != '\n' by {
      forall i | 0 <= i < |v| ensures v[i] != '\n' {
        if i >= 2 {
          assert v[i] == d[i - 2];
        }
      }
    }
    assert EntryOk(Entry("frame", v));
  }

  predicate AllOk(es: seq<Entry>)
  {
    forall e :: e in es ==> EntryOk(e)
  }

  lemma AllOkAppend(a: seq<Entry>, b: seq<Entry>)
    requires AllOk(a) && AllOk(b)
    ensures AllOk(a + b)
  {
  }

  lemma DrawSectionOk()
    ensures SectionOk(DrawSection)
  {
    assert AllOk([Entry("effect.name", "標準描画")]);
    DrawPositionOk();
    DrawRotationOk();
    DrawBlendOk();
    AllOkAppend([Entry("effect.name", "標準描画")], DrawPosition);
    AllOkAppend([Entry("effect.name", "標準描画")] + DrawPosition, DrawRotation);
    AllOkAppend([Entry("effect.name", "標準描画")] + DrawPosition + DrawRotation, DrawBlend);
  }

  lemma VariableFontStyleOk()
    ensures forall e | e in VariableFontStyle :: EntryOk(e)
  {
    VfLookOk();
    VfShadowOk();
    VfOutlineOk();
    VfAxesOk();
    VfParametricAxesOk();
    VfLayoutOk();
    AllOkAppend(VfLook, VfShadow);
    AllOkAppend(VfLook + VfShadow, VfOutline);
    AllOkAppend(VfLook + VfShadow + VfOutline, VfAxes);
    AllOkAppend(VfLook + VfShadow + VfOutline + VfAxes, VfParametricAxes);
    AllOkAppend(VfLook + VfShadow + VfOutline + VfAxes + VfParametricAxes, VfLayout);
  }

  lemma DrawPositionOk()
    ensures forall e | e in DrawPosition :: EntryOk(e)
  {
  }

  lemma DrawRotationOk()
    ensures forall e | e in DrawRotation :: EntryOk(e)
  {
  }

  lemma DrawBlendOk()
    ensures forall e | e in DrawBlend :: EntryOk(e)
  {
  }

  lemma VfLookOk()
    ensures forall e | e in VfLook :: EntryOk(e)
  {
  }

  lemma VfShadowOk()
    ensures forall e | e in VfShadow :: EntryOk(e)
  {
  }

  lemma VfOutlineOk()
    ensures forall e | e in VfOutline :: EntryOk(e)
  {
  }

  lemma VfAxesOk()
    ensures forall e | e in VfAxes :: EntryOk(e)
  {
  }

  lemma VfParametricAxesOk()
    ensures forall e | e in VfParametricAxes :: EntryOk(e)
  {
  }

  lemma VfLayoutOk()
    ensures forall e | e in VfLayout :: EntryOk(e)
  {
  }

  lemma TextStyleHeadOk()
    ensures forall e | e in TextStyleHead :: EntryOk(e)
  {
  }

  lemma TextStyleMiddleOk()
    ensures forall e | e in TextStyleMiddle :: EntryOk(e)
  {
  }

  lemma TextStyleTailOk()
    ensures forall e | e in TextStyleTail :: EntryOk(e)
  {
  }
}
