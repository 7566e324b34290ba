/** The filter engine: which catalog entries the current type filter and search
    query let through, how the selection is reconciled with the new view, and
    the screen refreshes a filter or selection change triggers. */
module Filter {
  import opened Wrappers
  import opened Text
  import opened Fonts

  /** `FontTypeFilter`. */
  datatype FontTypeFilter = All | System | Folder

  /** The type combo box: item 1 is "システム", item 2 is "外部", anything else
      (item 0 "すべて", or no selection) shows all entries. */
  function ComboToFilter(sel: int): (f: FontTypeFilter)
    ensures f == System <==> sel == 1
    ensures f == Folder <==> sel == 2
    ensures f == All <==> sel != 1 && sel != 2
  {
    if sel == 1 then System else if sel == 2 then Folder else All
  }

  /** An entry passes when its type matches the filter and the lowercased query
      is empty or occurs in its lowercased display name. */
  predicate Passes(item: FontItem, filter: FontTypeFilter, queryLower: string)
  {
    && (filter == All || (filter == System) == item.isSystemFont)
    && (queryLower == [] || Contains(NameKey(item), queryLower))
  }

  /** The indices among the first `n` entries that pass, in catalog order. */
  function FilterUpTo(fonts: seq<FontItem>, filter: FontTypeFilter, queryLower: string, n: nat): seq<int>
    requires n <= |fonts|
  {
    if n == 0 then []
    else FilterUpTo(fonts, filter, queryLower, n - 1) + (if Passes(fonts[n - 1], filter, queryLower) then [n - 1] else [])
  }

  /** `g_filteredIndices` after `ApplyFilter`. */
  function FilterView(fonts: seq<FontItem>, filter: FontTypeFilter, query: string): seq<int>
  {
    FilterUpTo(fonts, filter, ToLower(query), |fonts|)
  }

  predicate StrictlyIncreasing(s: seq<int>)
  {
    forall i, j :: 0 <= i < j < |s| ==> s[i] < s[j]
  }

  lemma {:induction false} FilterUpToSpec(fonts: seq<FontItem>, filter: FontTypeFilter, queryLower: string, n: nat)
    requires n <= |fonts|
    ensures var v := FilterUpTo(fonts, filter, queryLower, n);
            && StrictlyIncreasing(v)
            && (forall k :: 0 <= k < |v| ==> 0 <= v[k] < n)
            && (forall i :: i in v <==> 0 <= i < n && Passes(fonts[i], filter, queryLower))
  {
    if n > 0 {
      FilterUpToSpec(fonts, filter, queryLower, n - 1);
    }
  }

  /** The view is a strictly increasing list of catalog indices (so it keeps
      catalog order), and index `i` is in it exactly when entry `i` passes. */
  lemma FilterViewSpec(fonts: seq<FontItem>, filter: FontTypeFilter, query: string)
    ensures var v := FilterView(fonts, filter, query);
            && StrictlyIncreasing(v)
            && (forall k :: 0 <= k < |v| ==> 0 <= v[k] < |fonts|)
            && (forall i :: i in v <==> 0 <= i < |fonts| && Passes(fonts[i], filter, ToLower(query)))
  {
    FilterUpToSpec(fonts, filter, ToLower(query), |fonts|);
  }

  /** The "all" filter with an empty query lets every entry through. */
  lemma {:induction false} EverythingPassesUnfiltered(fonts: seq<FontItem>, n: nat)
    requires n <= |fonts|
    ensures FilterUpTo(fonts, All, [], n) == seq(n, i => i)
  {
    if n > 0 {
      EverythingPassesUnfiltered(fonts, n - 1);
    }
  }

  /** The selection after a new view: -1 for an empty view; otherwise the old
      selection if the view holds it, else the view's first index. */
  function Reconcile(view: seq<int>, selected: int): (r: int)
    ensures view == [] ==> r == -1
    ensures view != [] ==> r in view
    ensures selected in view ==> r == selected
    ensures view != [] && selected !in view ==> r == view[0]
  {
    if view != [] then (if selected in view then selected else view[0]) else -1
  }

  /** Reconciling twice against the same view changes nothing more: re-applying
      the same filter state leaves the view and the selection as they are. */
  lemma ReconcileIdempotent(view: seq<int>, selected: int)
    ensures Reconcile(view, Reconcile(view, selected)) == Reconcile(view, selected)
  {
  }

  /** After a reconciliation against a filter view the selection is -1 or a
      valid catalog index that passes the filter. */
  lemma ReconciledSelectionValid(fonts: seq<FontItem>, filter: FontTypeFilter, query: string, selected: int)
    ensures var r := Reconcile(FilterView(fonts, filter, query), selected);
            r == -1 || (0 <= r < |fonts| && Passes(fonts[r], filter, ToLower(query)))
  {
    FilterViewSpec(fonts, filter, query);
  }

  /** The row `RebuildListViewItems` highlights: the first row holding the
      selection, when the selection is not negative. */
  function HighlightedRow(rows: seq<int>, selected: int): (r: Option<nat>)
    ensures r.Some? ==> selected >= 0 && r.value < |rows| && rows[r.value] == selected &&
                        forall j :: 0 <= j < r.value ==> rows[j] != selected
    ensures r.None? ==> selected < 0 || selected !in rows
  {
    if selected < 0 then None
    else FirstRowOf(rows, selected, 0)
  }

  function FirstRowOf(rows: seq<int>, selected: int, from: nat): (r: Option<nat>)
    requires from <= |rows|
    ensures r.Some? ==> from <= r.value < |rows| && rows[r.value] == selected &&
                        forall j :: from <= j < r.value ==> rows[j] != selected
    ensures r.None? ==> forall j :: from <= j < |rows| ==> rows[j] != selected
    decreases |rows| - from
  {
    if from == |rows| then None
    else if rows[from] == selected then Some(from)
    else FirstRowOf(rows, selected, from + 1)
  }

  /** What a filter or selection change asks the window to refresh, in order. */
  datatype Refresh =
    | ListRebuilt(rows: seq<int>, highlightedRow: Option<nat>)  // RebuildListViewItems
    | DetailPanelUpdated(selection: int)                       // UpdateDetailPanel
    | GridRedrawn                                              // RedrawGrid
    | PreviewRequested                                         // RenderPreview
    | SetFontObjectPosted                                      // PostMessageW(WM_DO_SET_FONT_OBJECT)
}
