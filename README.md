# FontPreview plugin core, modelled in Dafny

This project models the core of `FontPreviewNew.cpp`, a font-preview plugin for a
video editing host. The plugin:

- builds a catalog of fonts from the system font collection and from a font folder;
- lets the user filter it by type and by a case-insensitive search string;
- tracks the selected entry;
- reads variable-font axes (tags and ranges) for display;
- caches one DirectWrite font collection per folder-font file;
- renders a preview through a Direct3D / Direct2D swap chain, guarded against re-entry;
- pushes the selected font into the host editor, either by writing the font
  properties of existing objects or by creating a new object from an alias text;
- lays out its window's controls.

The modules follow the plugin's parts:

| file | module | what it holds |
|---|---|---|
| `wrappers.dfy` | `Wrappers` | `Option` and `Result` |
| `text.dfy` | `Text` | `ToLower`, `std::wstring::find`, the 511-character `GetWindowTextW` buffer |
| `fonts.dfy` | `Fonts` | the catalog entry `FontItem`, folder display names, `ExtractFamilyName` |
| `axes.dfy` | `Axes` | `TagToString`, `CollectFontAxes`, `BuildAxisTagLine`, `BuildAxisTooltip` |
| `catalog.dfy` | `Catalog` | the two enumeration sources and first-wins deduplication |
| `filter.dfy` | `Filter` | the filter view, selection reconciliation, the type combo |
| `browser.dfy` | `Browser` | class `FontBrowser`: the catalog, view and selection globals and the methods that update them |
| `cache.dfy` | `CollectionCache` | class `FontCollectionCache`: `GetOrCreateExternalFontCollection` |
| `renderer.dfy` | `Renderer` | class `PreviewRenderer`: device, swap chain, target and the `RenderPreview` pass |
| `alias.dfy` | `Alias` | frame length, the two alias templates, and how the host reads an alias text back |
| `hostwrite.dfy` | `Host` | `SetFontTextObject` and `CreateVariableFontObject` against a host given as data |
| `layout.dfy` | `Layout` | `UpdateLayout` |

The outside world enters as parameters:

- each DirectWrite, Direct3D, DXGI or Direct2D call is an outcome: a flag, an
  HRESULT, or an optional opaque handle;
- a directory listing is a sequence of entries;
- the host's edit section is a value that says which entry points exist,
  which objects are selected and how the host answers each request;
- window texts are strings.

The state the source keeps in globals and updates in place is held in classes
whose methods are proved against specification functions. For example,
`FontBrowser.ApplyFilter` ends with `filteredIndices == FilterView(...)`, and
the properties of `FilterView` are lemmas.

## Model

| member | source | states |
|---|---|---|
| Text.LowerChar | FontPreviewNew.cpp:150-155 | `towlower` in the C locale maps exactly the ASCII capitals to small letters (+32), leaves every other character alone, and never yields a capital |
| Text.ToLower | FontPreviewNew.cpp:150-155 | the result has the input's length and is `LowerChar` applied to each code unit |
| Text.WindowText | FontPreviewNew.cpp:333-337 | reading an edit box into a 512-character buffer yields a prefix of its text of at most 511 characters, the whole text when it fits |
| Text.FindFrom | FontPreviewNew.cpp:611-615 | the result is the first position at or after `from` where the pattern occurs, or none when it occurs nowhere from there |
| Text.Find | FontPreviewNew.cpp:611-615 | `find` succeeds exactly when the pattern is contained, and returns the first occurrence |
| Fonts.ExtractFamilyName | FontPreviewNew.cpp:157-167 | a system name is kept; a folder name without " [" is kept; otherwise the family followed by " [" is a prefix of the name and the family holds no " [" (the cut is at the first marker) |
| Fonts.FamilyOfFolderName | FontPreviewNew.cpp:471-474 | cutting the display name `family [file]` of a folder entry gives back the family whenever the family has no " [" of its own |
| Axes.TagBytes | FontPreviewNew.cpp:222-230 | the four bytes of a tag, most significant first, pack back to the tag |
| Axes.TagBytesOfPack | FontPreviewNew.cpp:222-230 | unpacking four packed bytes gives them back |
| Axes.CutAtNul | FontPreviewNew.cpp:222-230 | a NUL-terminated buffer reads as its prefix up to (not including) the first zero byte |
| Axes.TagToString | FontPreviewNew.cpp:222-230 | the string is a prefix of the tag's bytes with no zero byte, stopping only at a zero byte or after four bytes |
| Axes.TagToStringOfPack | FontPreviewNew.cpp:222-230 | four non-zero bytes survive packing and `TagToString` unchanged |
| Axes.ReadableAxes | FontPreviewNew.cpp:240-262 | a face with variations whose resource and both bulk queries succeed yields exactly that resource's axes; non-empty axes come only from such a face |
| Axes.ReadableFaceGivesItsAxes | FontPreviewNew.cpp:240-268 | collecting from a fully readable variable face gives one tag and one range per resource axis, in resource order, whatever the entry held before |
| Axes.CollectFontAxes | FontPreviewNew.cpp:234-268 | without a face the entry is unchanged; with one, both vectors are refilled: names and kind are unchanged, `axisTags` and `axisRanges` have the same length, and entry `i` is `TagToString` of axis `i` with that axis' minimum and maximum, in resource order |
| Axes.NoReadableAxesEmpties | FontPreviewNew.cpp:240-260 | a face without variations, or with an unreadable resource or failing queries, leaves both vectors empty |
| Axes.Widen | FontPreviewNew.cpp:317 | a narrow byte widens through signed `char`: below 0x80 unchanged, from 0x80 up to 0xFF80-0xFFFF |
| Axes.AccumulateIsJoin | FontPreviewNew.cpp:314-326 | "add a separator unless the accumulator is empty, then the piece" over non-empty pieces is the usual join |
| Axes.CappedShape | FontPreviewNew.cpp:306-326 | a capped display of non-empty pieces is the join of all of them, or of the first 15 plus the ellipsis when there are more |
| Axes.BuildAxisTagLine | FontPreviewNew.cpp:303-327 | the loop with its counter produces `TagLine` of the entry's tags |
| Axes.TagLineShape | FontPreviewNew.cpp:303-327 | with non-empty tags the line is the tags separated by spaces, at most 15 of them followed by " ..." |
| Axes.TooltipLine | FontPreviewNew.cpp:290-296 | each tooltip line is non-empty |
| Axes.BuildAxisTooltip | FontPreviewNew.cpp:271-301 | the loop produces `Tooltip` of the entry |
| Axes.TooltipShape | FontPreviewNew.cpp:271-301 | for an entry with axes, the tooltip is one line per axis range joined by newlines, at most 15 lines followed by "..." |
| Catalog.FindLocaleName | FontPreviewNew.cpp:526-533 | the result is the first index with the wanted locale, or none when no name has it |
| Catalog.ResolveFamilyName | FontPreviewNew.cpp:526-540 | a name is found exactly when the list is non-empty, and it is the first "ja-jp" name, else the first "en-us" name, else the first name |
| Catalog.SystemEntry | FontPreviewNew.cpp:518-556 | a system family yields an entry exactly when its localized names can be read and are not empty; the entry is a system entry with an empty path, named by the preferred-locale name, and its axis vectors are those collected from the family's first normal-weight face |
| Catalog.SystemEntries | FontPreviewNew.cpp:518-568 | the system source yields only system entries |
| Catalog.FaceEntry | FontPreviewNew.cpp:451-484 | a folder face yields an entry exactly when its family names can be read and are not empty; the entry is a folder entry named `family [file]` with the preferred-locale family, and its path is the folder, a backslash and the file name; its axis vectors are those collected from the file's face index 0 |
| Catalog.FaceEntries | FontPreviewNew.cpp:447-498 | the faces of one file yield at most one entry each, all folder entries with that file's path |
| Catalog.FaceEntriesShareFirstFaceAxes | FontPreviewNew.cpp:476-484 | every entry of one font file carries the same axis vectors, those of the file's face index 0 |
| Catalog.FileEntries | FontPreviewNew.cpp:404-445 | a directory entry yields entries only when it is not a directory and its name passes the extension check; every entry it yields is a folder entry with that file's path |
| Catalog.FontExtensionIgnoresCase | FontPreviewNew.cpp:409-417 | a file name passes the extension check exactly when it has at least four characters and its last four, lowercased, are ".ttf", ".otf" or ".ttc" |
| Catalog.FolderEntries | FontPreviewNew.cpp:393-501 | the folder source yields only folder entries, in directory order and then face order |
| Catalog.DedupOntoAppend | FontPreviewNew.cpp:574 | offering the folder candidates after the system ones, sharing one set of seen names, is one deduplication of both |
| Catalog.DedupIsFirstOccurrences | FontPreviewNew.cpp:486-497 | deduplication keeps exactly the first candidate of each lowercased name, in order, and loses no name |
| Catalog.DedupOntoDistinct | FontPreviewNew.cpp:558-567 | offering candidates to a list without repeated names keeps it without repeated names |
| Catalog.FirstOccurrencesAreFirsts | FontPreviewNew.cpp:486-497 | every kept entry is the first candidate of its name |
| Catalog.CatalogIsFirstOccurrences | FontPreviewNew.cpp:503-582 | the catalog has no two entries with the same lowercased name, has every name a source yields, and is the first entry of each name in enumeration order |
| Catalog.SystemFamiliesWin | FontPreviewNew.cpp:558-575 | an entry whose name some system family yields is a system entry: a system family beats a folder face of the same name |
| Filter.ComboToFilter | FontPreviewNew.cpp:1495-1504 | item 1 means system fonts, item 2 folder fonts, anything else all (each in both directions) |
| Filter.FilterUpToSpec | FontPreviewNew.cpp:604-618 | the indices kept among the first `n` are strictly increasing, below `n`, and index `i` is kept exactly when entry `i` passes |
| Filter.FilterViewSpec | FontPreviewNew.cpp:597-618 | the view is strictly increasing, within the catalog, and holds `i` exactly when entry `i` passes the type filter and the lowercased query is empty or found in its lowercased name |
| Filter.EverythingPassesUnfiltered | FontPreviewNew.cpp:604-618 | the "all" filter with an empty query keeps every index |
| Filter.Reconcile | FontPreviewNew.cpp:620-630 | an empty view gives -1; a selection in the view is kept; any other becomes the view's first index |
| Filter.ReconcileIdempotent | FontPreviewNew.cpp:620-630 | reconciling again against the same view changes nothing, so applying the filter a second time to the same state leaves view and selection as they were |
| Filter.ReconciledSelectionValid | FontPreviewNew.cpp:597-630 | after reconciliation the selection is -1 or a catalog index whose entry passes the filter |
| Filter.HighlightedRow | FontPreviewNew.cpp:664-675 | the highlighted row is the first row holding a non-negative selection, and there is none when the selection is negative or absent |
| Browser.FontBrowser.EnumerateFonts | FontPreviewNew.cpp:503-582 | the two loops leave `fontList` equal to `BuildCatalog` of the sources |
| Browser.FontBrowser.EnumerateFolderFonts | FontPreviewNew.cpp:393-501 | with a factory, the folder's entries are offered in order to the list with the caller's seen names; without one, nothing changes; the returned set is the list's names |
| Browser.FontBrowser.OfferFileFaces | FontPreviewNew.cpp:445-498 | the faces of one font file are offered in face order, and the seen set stays the list's names |
| Browser.FontBrowser.ApplyFilter | FontPreviewNew.cpp:595-640 | the view becomes `FilterView`, the selection is reconciled, and the refreshes are the list (highlighting the selection as it was before reconciliation), the detail panel, the grid and the preview, in that order |
| Browser.FontBrowser.ApplyFilterFromUI | FontPreviewNew.cpp:1487-1506 | the query is read (truncated to 511 characters) only when the search box exists, the type only when the combo exists, then the filter is applied |
| Browser.FontBrowser.HandleListViewSelection | FontPreviewNew.cpp:1439-1469 | a row (the selected one, else the hint) holding a valid catalog index that differs from the selection, or any valid one on a double-click, becomes the selection and triggers the refreshes (plus the host write on a double-click); otherwise nothing changes |
| CollectionCache.CallError | FontPreviewNew.cpp:189-212 | a failed call reports its own HRESULT, and a call that "succeeded" with a null object reports `E_FAIL` |
| CollectionCache.Build | FontPreviewNew.cpp:187-212 | building succeeds exactly when all five calls succeed, and otherwise reports the error of the first call that failed |
| CollectionCache.GetOrCreate | FontPreviewNew.cpp:169-216 | no factory gives `E_FAIL`, an empty path `E_INVALIDARG`, a cached path its handle; otherwise the build result; a failure leaves the map as it was, and a success stores the handle under exactly that path |
| CollectionCache.SecondCallHits | FontPreviewNew.cpp:179-185 | after a success the same path is answered with the same handle, whatever the calls would do, and the map stays put |
| CollectionCache.FailureIsRetried | FontPreviewNew.cpp:187-212 | after a failure the next call for the path behaves as if the first had not happened |
| CollectionCache.OtherPathsUntouched | FontPreviewNew.cpp:214 | a call never adds, removes or replaces the entry of another path, and never replaces an existing entry |
| CollectionCache.HandlesStayDistinct | FontPreviewNew.cpp:179-216 | when the handle DirectWrite returns is not one already cached, different paths keep different handles: calls for different paths never alias |
| CollectionCache.FontCollectionCache.GetOrCreateExternalFontCollection | FontPreviewNew.cpp:169-216 | the method's result and new map are those of `GetOrCreate` on the old map |
| Renderer.EnsureDevice | FontPreviewNew.cpp:694-736 | with all five handles present nothing happens and the result is true; a failed `D3D11CreateDevice` changes nothing; otherwise the Direct3D pair stays stored even when a later step fails; consistency is kept, the result is true exactly when all five handles exist, and swap chain and target are untouched |
| Renderer.ReleaseTarget | FontPreviewNew.cpp:738-745 | the target is gone, the context no longer draws into it, and nothing else changes |
| Renderer.AttachTarget | FontPreviewNew.cpp:827-857 | the target is set (and attached to the context) exactly when the back buffer and the bitmap are obtained; otherwise nothing changes |
| Renderer.SwapChainStepConsistent | FontPreviewNew.cpp:747-858 | the step keeps the handles consistent, and a success leaves a ready device drawing into a fresh target on a swap chain |
| Renderer.SwapChainTargetOnlyOnSuccess | FontPreviewNew.cpp:747-858 | bad arguments change nothing; once the device is ready the target is released first, so there is a target afterwards exactly when the step succeeds |
| Renderer.SwapChainResize | FontPreviewNew.cpp:786-825 | a failed resize drops the swap chain; a successful one keeps it; a swap chain is created only when there was none |
| Renderer.PreviewText | FontPreviewNew.cpp:918-924 | the drawn text is never empty, and it is the sample text whenever that is not empty |
| Renderer.ChooseFormat | FontPreviewNew.cpp:941-954 | the entry's family in the given collection when the primary format succeeds; otherwise "Segoe UI" in the system collection, if that succeeds |
| Renderer.DrawSelectionSpec | FontPreviewNew.cpp:926-971 | text is drawn only for a selection inside the catalog and never empty; a system entry leaves the cache alone and uses the system collection; a folder entry uses its file's collection when it could be had |
| Renderer.PreviewRenderer.EnsurePreviewDevice | FontPreviewNew.cpp:694-736 | the new handles and the result are those of `EnsureDevice`, and the handles stay consistent |
| Renderer.PreviewRenderer.ReleasePreviewTarget | FontPreviewNew.cpp:738-745 | the new handles are those of `ReleaseTarget`, and the handles stay consistent |
| Renderer.PreviewRenderer.CreateOrResizeSwapChain | FontPreviewNew.cpp:747-858 | the new handles and the result are those of `SwapChainStep`, and the handles stay consistent |
| Renderer.PreviewRenderer.SyncSampleTextFromEdit | FontPreviewNew.cpp:329-345 | the sample text becomes the edit box's text (at most 511 characters) when the box exists |
| Renderer.PreviewRenderer.DrawSelectedFont | FontPreviewNew.cpp:926-971 | what is drawn and the cache afterwards are those of `DrawSelection` |
| Renderer.PreviewRenderer.RenderPreview | FontPreviewNew.cpp:864-992 | a call made while a render is in progress changes nothing; the flag is restored on every path; otherwise, in order: the window check, the sample text refresh, the size check, the swap-chain step, then drawing the selection and presenting |
| Alias.AliasLengthFrames | FontPreviewNew.cpp:119-130 | a non-positive duration gives 1; an unusable rate gives -1; otherwise the duration in frames rounded up, at least 1 |
| Alias.Ceil | FontPreviewNew.cpp:126 | `ceil` gives the least integer not below its argument |
| Alias.ClampNeverFires | FontPreviewNew.cpp:125-128 | with a positive duration and rate the ceiling is already at least 1, so the clamp never changes it |
| Alias.FrameLengthFor | FontPreviewNew.cpp:1149-1156 | without edit information, or when the computed length is not positive, the length is 182; otherwise the computed length |
| Alias.ThirtyFpsExample | FontPreviewNew.cpp:116-130 | 1.1 seconds at 30 frames per second is 33 frames |
| Alias.Decimal | FontPreviewNew.cpp:1022 | a frame count is written as a non-empty run of digits without a leading zero |
| Alias.DecimalRoundTrip | FontPreviewNew.cpp:1022 | the decimal text of a frame count is all digits and reads back as the count |
| Alias.EffectiveLength | FontPreviewNew.cpp:1017-1018 | a non-positive length is replaced by 182; a positive one is kept |
| Alias.FindKey | FontPreviewNew.cpp:1021-1084 | a value found for a key comes from an entry with that key |
| Alias.AliasRoundTrip | FontPreviewNew.cpp:1021-1084 | an alias whose section names, keys and values hold no newline (and keys no `=`) reads back, line by line, as the sections it was written from |
| Alias.AliasTextsReadBack | FontPreviewNew.cpp:1015-1131 | both builders' texts read back as their templates whenever the text, name and path hold no newline |
| Alias.VariableFontAliasContents | FontPreviewNew.cpp:1015-1067 | the VF alias gives frame `0,<len>` and effect "Variable Font Text"; a system entry gets an empty font file and its name as font, a folder entry its path as font file and an empty font; the text is the sample |
| Alias.TextAliasContents | FontPreviewNew.cpp:1089-1131 | the Text alias gives frame `0,<len>`, effect テキスト, the display name as font and the sample as text |
| Alias.AliasesShareDrawSection | FontPreviewNew.cpp:1068-1083 | both aliases end with the same `[Object.1]` 標準描画 section, and every key is looked up the same way in both |
| Alias.VariableFontAliasWellFormed | FontPreviewNew.cpp:1015-1085 | the VF template is well formed when the substituted strings hold no newline |
| Alias.TextAliasWellFormed | FontPreviewNew.cpp:1089-1131 | the Text template is well formed when the substituted strings hold no newline |
| Host.WritePlan | FontPreviewNew.cpp:1269-1280 | a system font writes three values (its name into the standard Text effect and into Variable Font Text, an empty font file); a folder font writes two (an empty name, its path); only the two font keys are written |
| Host.PlanAgreesWithAlias | FontPreviewNew.cpp:1272-1279 | the Variable Font Text writes set both font keys, to the values a newly created Variable Font Text object has |
| Host.SelectedCountPositive | FontPreviewNew.cpp:1284-1294 | the count of updated objects is positive exactly when some selected object was updated |
| Host.ApplyToObject | FontPreviewNew.cpp:1262-1282 | a null object gets no request and is not updated; otherwise every write of the plan is sent in order, and the object is updated when the host accepts at least one |
| Host.RunSetCallback | FontPreviewNew.cpp:1256-1300 | the callback returns early without an edit section or setter; walks the selected objects when the host reports at least one; otherwise updates the focused object |
| Host.SetFontTextObject | FontPreviewNew.cpp:1212-1303 | no selection, no edit handle or a declined call means false and no request; otherwise the requests are the callback's, and the result is true exactly when the host reports the call and the callback reports an update |
| Host.CallsStayOnFontKeys | FontPreviewNew.cpp:1262-1299 | every request the host receives is a write of the plan, on one of the two font keys |
| Host.CreateVariableFontObject | FontPreviewNew.cpp:1133-1206 | the result is true exactly when there is a selection and an edit handle and the host runs the call, has the create function and returns an object; the request carries the alias for the button (VF template, Text template, or empty), placed at the edit position or at layer 0, frame 0 |
| Host.CreatedObjectMatchesWrites | FontPreviewNew.cpp:1149-1169 | the object created with the VF button reads back with the computed length, the Variable Font Text effect, the sample text and the same font identity that `SetFontTextObject` writes |
| Layout.TruncDivBounds | FontPreviewNew.cpp:1351 | C's integer division rounds toward zero: down for a non-negative dividend, up for a negative one |
| Layout.UpdateLayout | FontPreviewNew.cpp:1308-1385 | no window means no moves; otherwise exactly the existing controls are moved, each once, to their places, in the order of the pass, and the list column is set to the list's width less 4 |
| Layout.LayoutLowerRows | FontPreviewNew.cpp:1349-1364 | the list and the rows below it are placed with the running `y`, and the list column width is set when the list exists |
| Layout.LayoutPanes | FontPreviewNew.cpp:1366-1384 | the preview and axis panes and the sample row are placed with the running `y` |
| Layout.MoveIfPresent | FontPreviewNew.cpp:1327-1384 | a control is moved exactly when it exists, after every earlier control |
| Layout.BottomClampsSettle | FontPreviewNew.cpp:1349-1370 | the final clamp of the bottom height undoes the shrink before it, and the pane's own floor of 120 never applies, since the pane is at least 180 high |
| Layout.RowsStack | FontPreviewNew.cpp:1325-1377 | each row starts one gap below the previous one; the two buttons sit 2 pixels above the type label |
| Layout.RowsAlign | FontPreviewNew.cpp:1327-1384 | the panes split the width with a margin between them and at both edges; the buttons, combo and background button end at the right margin |
| Layout.PreviewIsTwoThirds | FontPreviewNew.cpp:1368 | the preview is two thirds of the inner width, rounded toward zero |
| Layout.ContentBottom | FontPreviewNew.cpp:1349-1384 | the sample row ends at max(h, 344 + list height): exactly at the window's bottom edge when it is tall enough, below it otherwise |
| Layout.MinimumSizes | FontPreviewNew.cpp:1338-1381 | the list is at least 160 high, the panes at least 180, the type label and the sample box at least 80 wide |

## Left out

- `ToUtf8` is not modelled: alias texts and host values are kept as Unicode strings, not UTF-8 bytes.
- Text.LowerChar: `towlower` is modelled for the C locale (ASCII capitals only); locale-dependent folding of other characters is not modelled.
- Floating point is not modelled: the `%.1f` numbers in tooltip lines (each line is an opaque non-empty string), the background colour division, the text layout rectangle, and the axis minimum and maximum (kept as reals).
- Alias.AliasLengthFrames: the duration is an exact rational, so IEEE rounding of `seconds*rate/scale` and the `int` conversion overflow for huge rates are not modelled. This matters at common rates: in double arithmetic 1.1 × 50 is slightly above 55 and 1.1 × 100 slightly above 110, so the plugin writes `frame=0,56` and `frame=0,111` where the model gives 55 and 110 (30 and 60 frames per second agree).
- CollectionCache.HandlesStayDistinct: that DirectWrite returns a handle not already in the cache is assumed, not modelled; handle freshness belongs to DirectWrite.
- The Direct3D, DXGI, Direct2D and DirectWrite calls are outcomes given as parameters: COM reference counting, the `Clear` colour, `EndDraw` and `Present1` results (which only reach the logger) are not modelled.
- Renderer.PreviewRenderer.RenderPreview: the DirectWrite factory is assumed present when drawing; a re-entrant render issued by the window system during the swap-chain step is not modelled beyond the guard flag.
- CollectionCache.GetOrCreate: the `outCollection` null check is not modelled, since every caller passes a pointer; cached handles are never null.
- The logger, `GetDefaultFontFolder`, `PathFileExistsW` (a folder listing is given or absent), `CreateControls`, `wnd_proc`, `RegisterPlugin`, the colour chooser and the other Win32 plumbing are not modelled.
- `UpdateDetailPanel`, `RedrawGrid`, `RebuildListViewItems` and `RenderPreview` calls made by the filter and selection code are reported as `Refresh` events rather than executed.
- Host.SetFontTextObject: the family name the source computes into `displayNameUtf8` is never used by the callback, so it is not modelled; `get_selected_object` and `get_focus_object` are assumed present, as the source calls them without a check.
- Host.CreateVariableFontObject: the host's answer to `create_object_from_alias` is a flag; what the host does with the alias beyond reading it back as sections is not modelled.
- Browser.FontBrowser.HandleListViewSelection: the list's rows are taken to be the current filtered view, as `RebuildListViewItems` leaves them; a row the list cannot read is a row outside that view.
- Layout.UpdateLayout: `GetClientRect` is the given width and height, and `MoveWindow` and `ListView_SetColumnWidth` are recorded as moves and a column width.
