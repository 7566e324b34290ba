/**
  `UpdateLayout`: the rectangles of the plugin window's controls for a client
  area of width `w` and height `h`. Rows are stacked top to bottom with a
  running `y`: the name label, the search row (edit box and type combo), the
  action row (type label and the two "add" buttons), the font list, the
  preview and axis panes side by side, and the sample row (edit box and
  background button). A control that does not exist is not moved.
*/
module Layout {
  import opened Wrappers

  datatype Rect = Rect(x: int, y: int, width: int, height: int)

  function Bottom(r: Rect): int { r.y + r.height }
  function Right(r: Rect): int { r.x + r.width }

  datatype Control =
    | NameLabel | SearchBox | TypeCombo | TypeLabel | AddText | AddVF
    | Grid | Preview | AxisLabel | SampleEdit | BgButton

  /** The position of each control's `MoveWindow` call in the pass. */
  function Rank(c: Control): nat
  {
    match c
    case NameLabel => 0
    case SearchBox => 1
    case TypeCombo => 2
    case TypeLabel => 3
    case AddText => 4
    case AddVF => 5
    case Grid => 6
    case Preview => 7
    case AxisLabel => 8
    case SampleEdit => 9
    case BgButton => 10
  }

  lemma RankInjective(c: Control, d: Control)
    ensures Rank(c) == Rank(d) ==> c == d
  {
  }

  /** One `MoveWindow` call. */
  datatype Move = Move(control: Control, rect: Rect)

  /** C's `/` on `int`: the quotient truncated toward zero. */
  function TruncDiv(a: int, b: int): int
    requires b > 0
  {
    if a >= 0 then a / b else -((-a) / b)
  }

  /** The truncated quotient is rounded toward zero: down for a non-negative
      dividend, up for a negative one. */
  lemma TruncDivBounds(a: int, b: int)
    requires b > 0
    ensures a >= 0 ==> TruncDiv(a, b) >= 0 && TruncDiv(a, b) * b <= a < TruncDiv(a, b) * b + b
    ensures a < 0 ==> TruncDiv(a, b) <= 0 && TruncDiv(a, b) * b - b < a <= TruncDiv(a, b) * b
  {
    var n := if a >= 0 then a else -a;
    var q := n / b;
    assert n == q * b + n % b && 0 <= n % b < b;
    if a < 0 {
      assert TruncDiv(a, b) == -q;
      assert TruncDiv(a, b) * b == -(q * b);
    }
  }

  function Max(a: int, b: int): int { if a >= b then a else b }

  const Margin := 10
  const NameHeight := 26
  const SearchHeight := 28
  const TypeHeight := 22
  const DetailGap := 8
  const SampleRowHeight := 30
  const ListMinHeight := 160
  const BottomMinHeight := 220
  const PaneMinHeight := 120
  const ButtonHeight := 28
  const TextButtonWidth := 70
  const VfButtonWidth := 120
  const ActionGap := 8
  const BgButtonWidth := 110

  // ---------------------------------------------------------------- the layout in closed form

  /** The top of the font list: below the name, search and action rows. */
  const ListTop := 114

  /** The height left for the list and the panes below it, keeping a bottom margin. */
  function Remaining(h: int): int { h - ListTop - Margin }

  /** Half of what remains, but at least 160. */
  function ListHeight(h: int): int { Max(ListMinHeight, TruncDiv(Remaining(h), 2)) }

  /** The rest, but at least 220. */
  function BottomHeight(h: int): int { Max(BottomMinHeight, Remaining(h) - ListHeight(h)) }

  function PaneTop(h: int): int { ListTop + ListHeight(h) + Margin }
  function PaneHeight(h: int): int { BottomHeight(h) - SampleRowHeight - Margin }
  function SampleTop(h: int): int { PaneTop(h) + PaneHeight(h) + Margin }

  /** Two thirds of the width inside three margins, truncated. */
  function PreviewWidth(w: int): int { TruncDiv((w - 3 * Margin) * 2, 3) }

  /** Where each control goes. */
  function Target(w: int, h: int, c: Control): Rect
  {
    match c
    case NameLabel => Rect(Margin, Margin, w - 2 * Margin, NameHeight)
    case SearchBox => Rect(Margin, 46, w - 2 * Margin - 140, SearchHeight)
    case TypeCombo => Rect(w - Margin - 130, 46, 130, SearchHeight)
    case TypeLabel => Rect(Margin, 84, Max(80, w - 2 * Margin - (VfButtonWidth + ActionGap + TextButtonWidth + ActionGap)), TypeHeight)
    case AddText => Rect(w - Margin - TextButtonWidth, 82, TextButtonWidth, ButtonHeight)
    case AddVF => Rect(w - Margin - TextButtonWidth - ActionGap - VfButtonWidth, 82, VfButtonWidth, ButtonHeight)
    case Grid => Rect(Margin, ListTop, w - 2 * Margin, ListHeight(h))
    case Preview => Rect(Margin, PaneTop(h), PreviewWidth(w), PaneHeight(h))
    case AxisLabel => Rect(2 * Margin + PreviewWidth(w), PaneTop(h), w - 3 * Margin - PreviewWidth(w), PaneHeight(h))
    case SampleEdit => Rect(Margin, SampleTop(h), Max(80, w - 3 * Margin - BgButtonWidth), SampleRowHeight)
    case BgButton => Rect(w - Margin - BgButtonWidth, SampleTop(h), BgButtonWidth, SampleRowHeight)
  }

  // ---------------------------------------------------------------- the pass

  /** `UpdateLayout`: nothing without a window; otherwise one move per
      existing control, in the order of the pass, each to its place, and the
      list's single column set to the list's inner width. */
  method UpdateLayout(hwndPresent: bool, w: int, h: int, present: set<Control>)
    returns (moves: seq<Move>, columnWidth: Option<int>)
    ensures !hwndPresent ==> moves == [] && columnWidth == None
    ensures hwndPresent ==> forall c :: Move(c, Target(w, h, c)) in moves <==> c in present
    ensures forall m | m in moves :: m.rect == Target(w, h, m.control)
    ensures forall i, j :: 0 <= i < j < |moves| ==> Rank(moves[i].control) < Rank(moves[j].control)
    ensures columnWidth == if hwndPresent && Grid in present then Some(w - 2 * Margin - 4) else None
  {
    moves := [];
    columnWidth := None;
    if !hwndPresent {
      return;
    }
    var margin := 10;
    var searchHeight := 28;
    var nameHeight := 26;
    var typeHeight := 22;
    var detailGap := 8;
    var buttonHeight := 28;

    var y := margin;
    assert Placed(moves, present, w, h, -1);
    moves := MoveIfPresent(moves, present, NameLabel, Rect(margin, y, w - margin * 2, nameHeight), w, h);
    y := y + nameHeight + margin;
    moves := MoveIfPresent(moves, present, SearchBox, Rect(margin, y, w - margin * 2 - 140, searchHeight), w, h);
    moves := MoveIfPresent(moves, present, TypeCombo, Rect(w - margin - 130, y, 130, searchHeight), w, h);
    y := y + searchHeight + margin;

    var actionY := y;
    var actionRight := w - margin;
    var textBtnW := 70;
    var vfBtnW := 120;
    var actionGap := 8;
    var labelW := Max(80, actionRight - margin - (vfBtnW + actionGap + textBtnW + actionGap));
    moves := MoveIfPresent(moves, present, TypeLabel, Rect(margin, actionY, labelW, typeHeight), w, h);
    moves := MoveIfPresent(moves, present, AddText, Rect(actionRight - textBtnW, actionY - 2, textBtnW, buttonHeight), w, h);
    moves := MoveIfPresent(moves, present, AddVF,
                           Rect(actionRight - textBtnW - actionGap - vfBtnW, actionY - 2, vfBtnW, buttonHeight), w, h);
    y := y + typeHeight + detailGap;
    moves, columnWidth := LayoutLowerRows(moves, present, w, h, y);
    PlacedAll(moves, present, w, h);
  }

  /** The second half of `UpdateLayout`, from the running `y` below the
      action row: the list takes half of the remaining height (at least 160),
      the panes and the sample row share the rest (at least 220). */
  method LayoutLowerRows(before: seq<Move>, present: set<Control>, w: int, h: int, top: int)
    returns (moves: seq<Move>, columnWidth: Option<int>)
    requires top == ListTop && Placed(before, present, w, h, Rank(AddVF))
    ensures Placed(moves, present, w, h, Rank(BgButton))
    ensures columnWidth == if Grid in present then Some(w - 2 * Margin - 4) else None
  {
    moves := before;
    columnWidth := None;
    var y := top;
    var margin := 10;
    var sampleRowHeight := 30;
    var listMinHeight := 160;
    var bottomMinHeight := 220;

    var remaining := h - y - margin;
    var listHeight := Max(listMinHeight, TruncDiv(remaining, 2));
    var bottomHeight := Max(bottomMinHeight, remaining - listHeight);
    if listHeight + bottomHeight > remaining {
      bottomHeight := remaining - listHeight;
    }
    if bottomHeight < bottomMinHeight {
      bottomHeight := bottomMinHeight;
    }
    assert y == ListTop && remaining == Remaining(h);
    assert listHeight == ListHeight(h);
    assert bottomHeight == BottomHeight(h);
    moves := MoveIfPresent(moves, present, Grid, Rect(margin, y, w - margin * 2, listHeight), w, h);
    if Grid in present {
      var gridW := w - margin * 2;
      columnWidth := Some(gridW - 4);
    }
    y := y + listHeight + margin;
    moves := LayoutPanes(moves, present, w, h, y, bottomHeight);
  }

  /** The panes and the sample row below the list: the preview and the axis
      pane share the row's height (the bottom part less the sample row and a
      margin, at least 120), split two thirds to one third. */
  method LayoutPanes(before: seq<Move>, present: set<Control>, w: int, h: int, top: int, bottomHeight: int)
    returns (moves: seq<Move>)
    requires top == PaneTop(h) && bottomHeight == BottomHeight(h)
    requires Placed(before, present, w, h, Rank(Grid))
    ensures Placed(moves, present, w, h, Rank(BgButton))
  {
    moves := before;
    var y := top;
    var margin := 10;
    var sampleRowHeight := 30;

    var paneHeight := bottomHeight - sampleRowHeight - margin;
    assert paneHeight == PaneHeight(h) >= 180;
    if paneHeight < 120 {
      paneHeight := 120;
    }
    var previewW := TruncDiv((w - margin * 3) * 2, 3);
    assert previewW == PreviewWidth(w);
    var axisW := w - margin * 3 - previewW;
    moves := MoveIfPresent(moves, present, Preview, Rect(margin, y, previewW, paneHeight), w, h);
    moves := MoveIfPresent(moves, present, AxisLabel, Rect(margin + previewW + margin, y, axisW, paneHeight), w, h);

    var sampleTop := y + paneHeight + margin;
    var bgW := 110;
    var sampleW := Max(80, w - margin * 3 - bgW);
    moves := MoveIfPresent(moves, present, SampleEdit, Rect(margin, sampleTop, sampleW, sampleRowHeight), w, h);
    moves := MoveIfPresent(moves, present, BgButton, Rect(w - margin - 110, sampleTop, 110, sampleRowHeight), w, h);
  }

  /** Once the last control is placed, every existing control has its move. */
  lemma PlacedAll(moves: seq<Move>, present: set<Control>, w: int, h: int)
    requires Placed(moves, present, w, h, Rank(BgButton))
    ensures forall c :: Move(c, Target(w, h, c)) in moves <==> c in present
    ensures forall m | m in moves :: m.rect == Target(w, h, m.control)
  {
    forall c ensures Move(c, Target(w, h, c)) in moves <==> c in present {
      ControlsMember(moves, c);
      if c in present {
        assert c in Controls(moves);
        var i :| 0 <= i < |moves| && moves[i].control == c;
        assert moves[i] == Move(c, Target(w, h, c));
      }
      if Move(c, Target(w, h, c)) in moves {
        var i :| 0 <= i < |moves| && moves[i] == Move(c, Target(w, h, c));
        assert c in Controls(moves);
      }
    }
  }

  /** The controls the moves address. */
  function Controls(moves: seq<Move>): set<Control>
  {
    if moves == [] then {} else Controls(moves[..|moves| - 1]) + {moves[|moves| - 1].control}
  }

  lemma {:induction false} ControlsMember(moves: seq<Move>, d: Control)
    ensures d in Controls(moves) <==> exists i :: 0 <= i < |moves| && moves[i].control == d
  {
    if moves != [] {
      var init := moves[..|moves| - 1];
      ControlsMember(init, d);
      if d in Controls(init) {
        var i :| 0 <= i < |init| && init[i].control == d;
        assert moves[i] == init[i];
      }
      forall i | 0 <= i < |init| ensures moves[i] == init[i] { }
    }
  }

  /** The moves made so far are exactly those of the existing controls up to
      rank `k`, each to its place, in the order of the pass. */
  predicate Placed(moves: seq<Move>, present: set<Control>, w: int, h: int, k: int)
  {
    && (forall i | 0 <= i < |moves| :: moves[i].rect == Target(w, h, moves[i].control))
    && (forall i, j :: 0 <= i < j < |moves| ==> Rank(moves[i].control) < Rank(moves[j].control))
    && Controls(moves) == set d | d in present && Rank(d) <= k
  }

  /** One `if (hwnd) MoveWindow(...)` step: appends the move when the control
      exists. The rectangle computed by the pass must be the control's place. */
  method MoveIfPresent(before: seq<Move>, present: set<Control>, c: Control, r: Rect, w: int, h: int)
    returns (moves: seq<Move>)
    requires r == Target(w, h, c)
    requires Placed(before, present, w, h, Rank(c) - 1)
    ensures moves == if c in present then before + [Move(c, r)] else before
    ensures Placed(moves, present, w, h, Rank(c))
  {
    moves := before;
    if c in present {
      moves := moves + [Move(c, r)];
      assert moves[..|moves| - 1] == before;
      assert Controls(moves) == Controls(before) + {c};
      forall i | 0 <= i < |before| ensures moves[i] == before[i] { }
      forall i | 0 <= i < |before| ensures Rank(before[i].control) < Rank(c) {
        ControlsMember(before, before[i].control);
      }
    }
    forall d ensures d in Controls(moves) <==> d in present && Rank(d) <= Rank(c) {
      RankInjective(c, d);
    }
  }

  // ---------------------------------------------------------------- properties of the layout

  /** The final clamp of the bottom height undoes the shrink before it, so the
      bottom part is simply "the rest, but at least 220"; and the pane's own
      floor of 120 never applies, since the pane is at least 180 high. */
  lemma {:induction false} BottomClampsSettle(h: int)
    ensures var remaining := Remaining(h);
            var list := ListHeight(h);
            var first := Max(BottomMinHeight, remaining - list);
            var shrunk := if list + first > remaining then remaining - list else first;
            (if shrunk < BottomMinHeight then BottomMinHeight else shrunk) == BottomHeight(h)
    ensures PaneHeight(h) >= 180
  {
  }

  /** The rows are stacked without overlap: each starts one gap below the
      previous one, and the two buttons sit 2 pixels above the label's row. */
  lemma RowsStack(w: int, h: int)
    ensures Bottom(Target(w, h, NameLabel)) + Margin == Target(w, h, SearchBox).y == Target(w, h, TypeCombo).y
    ensures Bottom(Target(w, h, SearchBox)) + Margin == Target(w, h, TypeLabel).y
    ensures Target(w, h, AddText).y == Target(w, h, AddVF).y == Target(w, h, TypeLabel).y - 2
    ensures Bottom(Target(w, h, TypeLabel)) + DetailGap == Target(w, h, Grid).y
    ensures Bottom(Target(w, h, Grid)) + Margin == Target(w, h, Preview).y == Target(w, h, AxisLabel).y
    ensures Bottom(Target(w, h, Preview)) + Margin == Target(w, h, SampleEdit).y == Target(w, h, BgButton).y
  {
  }

  /** Controls sharing a row are placed side by side: the preview and the axis
      pane split the width with a margin between them and at both edges, the
      buttons and the type combo end at the right margin. */
  lemma RowsAlign(w: int, h: int)
    ensures Right(Target(w, h, Preview)) + Margin == Target(w, h, AxisLabel).x
    ensures Right(Target(w, h, AxisLabel)) + Margin == w
    ensures Right(Target(w, h, AddVF)) + ActionGap == Target(w, h, AddText).x
    ensures Right(Target(w, h, AddText)) + Margin == w
    ensures Right(Target(w, h, TypeCombo)) + Margin == w
    ensures Right(Target(w, h, BgButton)) + Margin == w
    ensures Right(Target(w, h, NameLabel)) + Margin == w && Right(Target(w, h, Grid)) + Margin == w
  {
  }

  /** The preview takes two thirds of the width between the margins, rounded
      toward zero; for a window narrower than three margins the rounding goes up. */
  lemma {:induction false} PreviewIsTwoThirds(w: int)
    ensures w >= 3 * Margin ==> 3 * PreviewWidth(w) <= 2 * (w - 3 * Margin) < 3 * PreviewWidth(w) + 3
    ensures w < 3 * Margin ==> 3 * PreviewWidth(w) - 3 < 2 * (w - 3 * Margin) <= 3 * PreviewWidth(w)
  {
    TruncDivBounds((w - 3 * Margin) * 2, 3);
  }

  /** The sample row ends at `max(h, 344 + list height)`: exactly at the
      window's bottom edge (the bottom margin reserved by `Remaining` is used
      up by the gap below the list) when the window is tall enough, and below
      it otherwise. */
  lemma {:induction false} ContentBottom(w: int, h: int)
    ensures Bottom(Target(w, h, SampleEdit)) == Max(h, ListTop + Margin + ListHeight(h) + BottomMinHeight)
    ensures Bottom(Target(w, h, SampleEdit)) == h <==> ListHeight(h) + BottomMinHeight <= Remaining(h)
  {
    assert Bottom(Target(w, h, SampleEdit)) == ListTop + Margin + ListHeight(h) + BottomHeight(h);
  }

  /** The minimum sizes the pass guarantees, whatever the window size. */
  lemma MinimumSizes(w: int, h: int)
    ensures Target(w, h, Grid).height >= ListMinHeight
    ensures Target(w, h, Preview).height >= 180 && Target(w, h, AxisLabel).height >= 180
    ensures Target(w, h, TypeLabel).width >= 80 && Target(w, h, SampleEdit).width >= 80
  {
  }
}
