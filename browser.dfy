/** The plugin's catalog, filter and selection state (`g_fontList`,
    `g_filteredIndices`, `g_selectedFontIndex`, `g_filterType`, `g_searchQuery`)
    and the operations that update it: enumeration, filtering and list selection. */
module Browser {
  import opened Wrappers
  import opened Text
  import opened Fonts
  import opened Axes
  import opened Catalog
  import opened Filter

  class FontBrowser {
    var fontList: seq<FontItem>
    var filteredIndices: seq<int>
    var selectedFontIndex: int
    var filterType: FontTypeFilter
    var searchQuery: string

    /** The state before `RegisterPlugin` runs: nothing listed, nothing selected. */
    constructor ()
      ensures fontList == [] && filteredIndices == [] && selectedFontIndex == -1
      ensures filterType == All && searchQuery == []
    {
      fontList := [];
      filteredIndices := [];
      selectedFontIndex := -1;
      filterType := All;
      searchQuery := [];
    }

    /** `EnumerateFonts`: rebuilds the catalog from the system collection, then
        (when the folder can be listed) from the font folder, sharing one set of
        seen lowercased names so that the first entry of each name wins. */
    method EnumerateFonts(factoryPresent: bool, system: Option<seq<SystemFamily>>,
                          folder: string, listing: Option<seq<DirEntry>>)
      modifies this`fontList
      ensures fontList == BuildCatalog(factoryPresent, system, folder, listing)
    {
      fontList := [];
      var seenNames: set<string> := {};
      if !factoryPresent || system.None? {
        return;
      }
      var families := system.value;
      var i := 0;
      while i < |families|
        invariant 0 <= i <= |families|
        invariant fontList == Dedup(SystemEntries(families[..i]))
        invariant seenNames == Keys(fontList)
      {
        var family := families[i];
        assert families[..i + 1][..i] == families[..i];
        ghost var before := SystemEntries(families[..i]);
        if family.names.Some? {
          var name := ResolveFamilyName(family.names.value);
          if name.Some? {
            var item := FontItem(name.value, [], true, [], []);
            if family.face.Some? {
              item := CollectFontAxes(item, family.face);
            }
            assert SystemEntry(family) == Some(item);
            assert SystemEntries(families[..i + 1]) == before + [item];
            DedupOntoSnoc([], before, item);
            var key := NameKey(item);
            if key !in seenNames {
              KeysSnoc(fontList, item);
              seenNames := seenNames + {key};
              fontList := fontList + [item];
            }
          }
        }
        i := i + 1;
      }
      assert families[..i] == families;
      if listing.Some? {
        seenNames := EnumerateFolderFonts(factoryPresent, folder, listing.value, seenNames);
        DedupOntoAppend([], SystemEntries(families), FolderEntries(folder, listing.value));
      } else {
        assert SystemEntries(families) + [] == SystemEntries(families);
      }
    }

    /** `EnumerateFolderFonts`: offers every face of every font file in the
        folder, in directory order, to the catalog; `seenNames` is the caller's set. */
    method EnumerateFolderFonts(factoryPresent: bool, folder: string, listing: seq<DirEntry>,
                                seenNames: set<string>) returns (seen: set<string>)
      requires seenNames == Keys(fontList)
      modifies this`fontList
      ensures factoryPresent ==> fontList == DedupOnto(old(fontList), FolderEntries(folder, listing))
      ensures !factoryPresent ==> fontList == old(fontList)
      ensures seen == Keys(fontList)
    {
      seen := seenNames;
      if !factoryPresent {
        return;
      }
      var k := 0;
      while k < |listing|
        invariant 0 <= k <= |listing|
        invariant fontList == DedupOnto(old(fontList), FolderEntries(folder, listing[..k]))
        invariant seen == Keys(fontList)
      {
        var entry := listing[k];
        FolderEntriesStep(folder, listing, k);
        DedupOntoAppend(old(fontList), FolderEntries(folder, listing[..k]), FileEntries(folder, entry));
        if !entry.isDirectory && IsFontFileName(entry.fileName) && entry.scan.Usable? {
          seen := OfferFileFaces(folder, entry, seen);
        }
        k := k + 1;
      }
      assert listing[..k] == listing;
    }

    /** The body of `EnumerateFolderFonts` for one font file: every face of the
        file's font set whose family name can be read becomes an entry named
        `family [fileName]`, with the axes of face index 0, unless its name was seen. */
    method OfferFileFaces(folder: string, entry: DirEntry, seenNames: set<string>) returns (seen: set<string>)
      requires IsCandidateFile(entry)
      requires seenNames == Keys(fontList)
      modifies this`fontList
      ensures fontList == DedupOnto(old(fontList), FileEntries(folder, entry))
      ensures seen == Keys(fontList)
    {
      seen := seenNames;
      var faceNames := entry.scan.faceNames;
      var firstFace := entry.scan.firstFace;
      var f := 0;
      assert faceNames[..0] == [];
      while f < |faceNames|
        invariant 0 <= f <= |faceNames|
        invariant fontList == DedupOnto(old(fontList), FaceEntries(folder, entry.fileName, faceNames[..f], firstFace))
        invariant seen == Keys(fontList)
      {
        ghost var faces := FaceEntries(folder, entry.fileName, faceNames[..f], firstFace);
        FaceEntriesStep(folder, entry.fileName, faceNames, firstFace, f);
        var names := faceNames[f];
        if names.Some? {
          var family := ResolveFamilyName(names.value);
          if family.Some? {
            var item := FontItem(FolderDisplayName(family.value, entry.fileName),
                                 FolderFilePath(folder, entry.fileName), false, [], []);
            if firstFace.Some? {
              item := CollectFontAxes(item, firstFace);
            }
            assert FaceEntry(folder, entry.fileName, names, firstFace) == Some(item);
            DedupOntoSnoc(old(fontList), faces, item);
            var key := NameKey(item);
            if key !in seen {
              KeysSnoc(fontList, item);
              seen := seen + {key};
              fontList := fontList + [item];
            }
          } else {
            assert faces + [] == faces;
          }
        } else {
          assert faces + [] == faces;
        }
        f := f + 1;
      }
      assert faceNames[..f] == faceNames;
    }

    /** `ApplyFilter`: recomputes the view, rebuilds the list (highlighting the
        selection as it was before reconciliation), reconciles the selection,
        then asks for the detail panel, the grid and the preview, in that order. */
    method ApplyFilter() returns (refreshes: seq<Refresh>)
      modifies this`filteredIndices, this`selectedFontIndex
      ensures filteredIndices == FilterView(fontList, filterType, searchQuery)
      ensures selectedFontIndex == Reconcile(filteredIndices, old(selectedFontIndex))
      ensures refreshes == [ListRebuilt(filteredIndices, HighlightedRow(filteredIndices, old(selectedFontIndex))),
                            DetailPanelUpdated(selectedFontIndex), GridRedrawn, PreviewRequested]
    {
      filteredIndices := [];
      var qLower := ToLower(searchQuery);
      var i := 0;
      while i < |fontList|
        invariant 0 <= i <= |fontList|
        invariant filteredIndices == FilterUpTo(fontList, filterType, qLower, i)
        invariant selectedFontIndex == old(selectedFontIndex)
      {
        var item := fontList[i];
        var keep := true;
        if filterType == System && !item.isSystemFont {
          keep := false;
        } else if filterType == Folder && item.isSystemFont {
          keep := false;
        } else if qLower != [] {
          var nameLower := ToLower(item.displayName);
          if Find(nameLower, qLower).None? {
            keep := false;
          }
        }
        if keep {
          filteredIndices := filteredIndices + [i];
        }
        i := i + 1;
      }
      refreshes := [ListRebuilt(filteredIndices, HighlightedRow(filteredIndices, selectedFontIndex))];
      if filteredIndices != [] {
        if selectedFontIndex !in filteredIndices {
          selectedFontIndex := filteredIndices[0];
        }
      } else {
        selectedFontIndex := -1;
      }
      refreshes := refreshes + [DetailPanelUpdated(selectedFontIndex), GridRedrawn, PreviewRequested];
    }

    /** `ApplyFilterFromUI`: reads the search box (when it exists) and the type
        combo (when it exists), then applies the filter. */
    method ApplyFilterFromUI(searchBox: Option<string>, typeCombo: Option<int>) returns (refreshes: seq<Refresh>)
      modifies this`searchQuery, this`filterType, this`filteredIndices, this`selectedFontIndex
      ensures searchQuery == if searchBox.Some? then WindowText(searchBox.value) else old(searchQuery)
      ensures filterType == if typeCombo.Some? then ComboToFilter(typeCombo.value) else old(filterType)
      ensures filteredIndices == FilterView(fontList, filterType, searchQuery)
      ensures selectedFontIndex == Reconcile(filteredIndices, old(selectedFontIndex))
      ensures refreshes == [ListRebuilt(filteredIndices, HighlightedRow(filteredIndices, old(selectedFontIndex))),
                            DetailPanelUpdated(selectedFontIndex), GridRedrawn, PreviewRequested]
    {
      if searchBox.Some? {
        searchQuery := WindowText(searchBox.value);
      }
      if typeCombo.Some? {
        filterType := ComboToFilter(typeCombo.value);
      }
      assert selectedFontIndex == old(selectedFontIndex);
      refreshes := ApplyFilter();
    }

    /** `HandleListViewSelection`: takes the list's selected row (or, when none,
        the row the notification names), reads the catalog index stored in that
        row, and selects it if it is a valid index that differs from the current
        selection or the event is a double-click; a double-click also posts the
        request to push the font into the host object. The list's rows are the
        entries of `filteredIndices`. */
    method HandleListViewSelection(selectedRow: int, hintRow: int, doubleClick: bool) returns (refreshes: seq<Refresh>)
      modifies this`selectedFontIndex
      ensures var row := if selectedRow < 0 then hintRow else selectedRow;
              var accepted := 0 <= row < |filteredIndices| && 0 <= filteredIndices[row] < |fontList| &&
                              (filteredIndices[row] != old(selectedFontIndex) || doubleClick);
              && (accepted ==> selectedFontIndex == filteredIndices[row] &&
                               refreshes == [DetailPanelUpdated(selectedFontIndex), GridRedrawn, PreviewRequested] +
                                            (if doubleClick then [SetFontObjectPosted] else []))
              && (!accepted ==> selectedFontIndex == old(selectedFontIndex) && refreshes == [])
      ensures selectedFontIndex != old(selectedFontIndex) ==>
                selectedFontIndex in filteredIndices && 0 <= selectedFontIndex < |fontList|
    {
      refreshes := [];
      var idx := selectedRow;
      if idx < 0 {
        idx := hintRow;
      }
      if idx < 0 || idx >= |filteredIndices| {
        return;
      }
      var fontIdx := filteredIndices[idx];
      if fontIdx < 0 || fontIdx >= |fontList| {
        return;
      }
      if fontIdx == selectedFontIndex && !doubleClick {
        return;
      }
      selectedFontIndex := fontIdx;
      refreshes := [DetailPanelUpdated(selectedFontIndex), GridRedrawn, PreviewRequested];
      if doubleClick {
        refreshes := refreshes + [SetFontObjectPosted];
      }
    }
  }
}
