/** Font discovery: the two enumeration sources (the system font collection and
    the font folder), the entries they yield in enumeration order, and the
    first-occurrence-wins deduplication on the lowercased display name. */
module Catalog {
  import opened Wrappers
  import opened Text
  import opened Fonts
  import opened Axes

  //------------------------------------------------------------------
  //  Family names
  //------------------------------------------------------------------

  /** One entry of an `IDWriteLocalizedStrings`: a locale name and the text for it. */
  datatype LocalizedName = LocalizedName(locale: string, text: string)

  /** `FindLocaleName`: the first index whose locale is `locale`. */
  function FindLocaleName(names: seq<LocalizedName>, locale: string): (r: Option<nat>)
    ensures r.Some? ==> r.value < |names| && names[r.value].locale == locale &&
                        forall j :: 0 <= j < r.value ==> names[j].locale != locale
    ensures r.None? ==> forall j :: 0 <= j < |names| ==> names[j].locale != locale
  {
    if names == [] then None
    else if names[0].locale == locale then Some(0)
    else match FindLocaleName(names[1..], locale)
         case None => None
         case Some(i) => Some(i + 1)
  }

  /** `i` is the first index whose locale is `locale`. */
  predicate FirstOfLocale(names: seq<LocalizedName>, i: nat, locale: string)
    requires i < |names|
  {
    names[i].locale == locale && forall j :: 0 <= j < i ==> names[j].locale != locale
  }

  /** Index `i` is the one the locale preference picks: the first "ja-jp" name;
      without one, the first "en-us" name; without either, the first name. */
  predicate PreferredLocale(names: seq<LocalizedName>, i: nat)
    requires i < |names|
  {
    || FirstOfLocale(names, i, "ja-jp")
    || ((forall j :: 0 <= j < |names| ==> names[j].locale != "ja-jp") &&
        (|| FirstOfLocale(names, i, "en-us")
         || (i == 0 && forall j :: 0 <= j < |names| ==> names[j].locale != "en-us")))
  }

  /** The name the plugin reads from a family's localized names: the "ja-jp" one,
      else the "en-us" one, else the first; `GetStringLength` fails on an empty list. */
  function ResolveFamilyName(names: seq<LocalizedName>): (r: Option<string>)
    ensures r.None? <==> names == []
    ensures r.Some? ==> exists i :: 0 <= i < |names| && r.value == names[i].text && PreferredLocale(names, i)
  {
    var index :=
      match FindLocaleName(names, "ja-jp")
      case Some(i) => i
      case None =>
        match FindLocaleName(names, "en-us")
        case Some(i) => i
        case None => 0;
    if index < |names| then Some(names[index].text) else None
  }

  //------------------------------------------------------------------
  //  The two sources
  //------------------------------------------------------------------

  /** One family of the system font collection: its localized names (None when
      `GetFontFamily` or `GetFamilyNames` fails) and the face of its first
      normal-weight, normal-style font (None when no `IDWriteFontFace5` is obtained). */
  datatype SystemFamily = SystemFamily(names: Option<seq<LocalizedName>>, face: Option<FontFace>)

  /** What DirectWrite makes of one candidate file: `Unusable` when the file
      reference, `Analyze`, the support check or the font-set builder fails;
      otherwise the family names of each face of the file's font set (None when
      that face's name query fails) and the face built from face index 0. */
  datatype FontFileScan =
    | Unusable
    | Usable(faceNames: seq<Option<seq<LocalizedName>>>, firstFace: Option<FontFace>)

  /** One result of the `FindFirstFileW`/`FindNextFileW` walk of the font folder. */
  datatype DirEntry = DirEntry(fileName: string, isDirectory: bool, scan: FontFileScan)

  /** The extension check: the lowercased name has at least four characters
      and ends in ".ttf", ".otf" or ".ttc". */
  predicate IsFontFileName(fileName: string)
  {
    var lower := ToLower(fileName);
    |lower| >= 4 &&
    var ext := lower[|lower| - 4..];
    ext == ".ttf" || ext == ".otf" || ext == ".ttc"
  }

  /** The entry a system family yields, if its name can be read. */
  function SystemEntry(family: SystemFamily): (r: Option<FontItem>)
    ensures r.Some? <==> family.names.Some? && family.names.value != []
    ensures r.Some? ==> r.value.isSystemFont && r.value.filePath == [] &&
                        exists i :: 0 <= i < |family.names.value| &&
                          r.value.displayName == family.names.value[i].text && PreferredLocale(family.names.value, i)
    ensures r.Some? ==> r.value == WithAxes(FontItem(r.value.displayName, [], true, [], []), family.face)
  {
    if family.names.None? then None
    else
      match ResolveFamilyName(family.names.value)
      case None => None
      case Some(name) => Some(WithAxes(FontItem(name, [], true, [], []), family.face))
  }

  /** The entries of the system source, in collection order. */
  function SystemEntries(families: seq<SystemFamily>): (r: seq<FontItem>)
    ensures forall i :: 0 <= i < |r| ==> r[i].isSystemFont
  {
    if families == [] then []
    else
      var init := SystemEntries(families[..|families| - 1]);
      match SystemEntry(families[|families| - 1])
      case None => init
      case Some(item) => init + [item]
  }

  /** The entry one face of a folder file yields, if its family name can be read.
      Its axes come from the file's face index 0, whichever face it is. */
  function FaceEntry(folder: string, fileName: string, names: Option<seq<LocalizedName>>,
                     firstFace: Option<FontFace>): (r: Option<FontItem>)
    ensures r.Some? <==> names.Some? && names.value != []
    ensures r.Some? ==> !r.value.isSystemFont && r.value.filePath == FolderFilePath(folder, fileName) &&
                        exists i :: 0 <= i < |names.value| &&
                          r.value.displayName == FolderDisplayName(names.value[i].text, fileName) &&
                          PreferredLocale(names.value, i)
    ensures r.Some? ==> r.value == WithAxes(FontItem(r.value.displayName, r.value.filePath, false, [], []), firstFace)
  {
    if names.None? then None
    else
      match ResolveFamilyName(names.value)
      case None => None
      case Some(family) =>
        Some(WithAxes(FontItem(FolderDisplayName(family, fileName), FolderFilePath(folder, fileName),
                               false, [], []), firstFace))
  }

  /** The entries of one file's faces, in face order. */
  function FaceEntries(folder: string, fileName: string, faceNames: seq<Option<seq<LocalizedName>>>,
                       firstFace: Option<FontFace>): (r: seq<FontItem>)
    ensures |r| <= |faceNames|
    ensures forall i :: 0 <= i < |r| ==> !r[i].isSystemFont && r[i].filePath == FolderFilePath(folder, fileName)
  {
    if faceNames == [] then []
    else
      var init := FaceEntries(folder, fileName, faceNames[..|faceNames| - 1], firstFace);
      match FaceEntry(folder, fileName, faceNames[|faceNames| - 1], firstFace)
      case None => init
      case Some(item) => init + [item]
  }

  /** The axis vectors a fresh entry gets from `face`. */
  function AxesFrom(face: Option<FontFace>): FontItem
  {
    WithAxes(FontItem([], [], false, [], []), face)
  }

  /** Every entry of `r` carries the axis vectors a fresh entry gets from `face`. */
  predicate CarryAxesOf(r: seq<FontItem>, face: Option<FontFace>)
  {
    forall i :: 0 <= i < |r| ==>
      r[i].axisTags == AxesFrom(face).axisTags && r[i].axisRanges == AxesFrom(face).axisRanges
  }

  /** Every face of a folder file carries the axes of the file's face index 0:
      all entries of one file share the same tag and range vectors. */
  lemma {:induction false} FaceEntriesShareFirstFaceAxes(folder: string, fileName: string,
                                                         faceNames: seq<Option<seq<LocalizedName>>>,
                                                         firstFace: Option<FontFace>)
    ensures CarryAxesOf(FaceEntries(folder, fileName, faceNames, firstFace), firstFace)
  {
    if faceNames != [] {
      var init := FaceEntries(folder, fileName, faceNames[..|faceNames| - 1], firstFace);
      FaceEntriesShareFirstFaceAxes(folder, fileName, faceNames[..|faceNames| - 1], firstFace);
      var step := FaceEntry(folder, fileName, faceNames[|faceNames| - 1], firstFace);
      if step.Some? {
        var it := step.value;
        var bare := FontItem(it.displayName, it.filePath, false, [], []);
        assert it == WithAxes(bare, firstFace);
        assert CarryAxesOf([it], firstFace);
        assert FaceEntries(folder, fileName, faceNames, firstFace) == init + [it];
      }
    }
  }

  /** One more face of the file adds that face's entry, if it has one. */
  lemma FaceEntriesStep(folder: string, fileName: string, faceNames: seq<Option<seq<LocalizedName>>>,
                        firstFace: Option<FontFace>, f: nat)
    requires f < |faceNames|
    ensures var step := FaceEntry(folder, fileName, faceNames[f], firstFace);
            FaceEntries(folder, fileName, faceNames[..f + 1], firstFace) ==
            FaceEntries(folder, fileName, faceNames[..f], firstFace) + (if step.Some? then [step.value] else [])
  {
    assert faceNames[..f + 1][..f] == faceNames[..f];
  }

  /** The extension check ignores case: a name passes exactly when it has at
      least four characters and its last four, lowercased, are one of the
      three font extensions ("Arial.TTF" passes, "a.ttf.bak" does not). */
  lemma FontExtensionIgnoresCase(fileName: string)
    ensures IsFontFileName(fileName) <==>
              |fileName| >= 4 && ToLower(fileName[|fileName| - 4..]) in {".ttf", ".otf", ".ttc"}
  {
    if |fileName| >= 4 {
      var lower := ToLower(fileName);
      assert lower[|lower| - 4..] == ToLower(fileName[|fileName| - 4..]);
    }
  }

  /** Whether a directory entry is a font file the plugin opens. */
  predicate IsCandidateFile(entry: DirEntry)
  {
    !entry.isDirectory && IsFontFileName(entry.fileName) && entry.scan.Usable?
  }

  /** The entries one directory entry yields: none for directories, names
      without a font extension and unusable files. */
  function FileEntries(folder: string, entry: DirEntry): (r: seq<FontItem>)
    ensures r != [] ==> !entry.isDirectory && IsFontFileName(entry.fileName)
    ensures forall i :: 0 <= i < |r| ==> !r[i].isSystemFont && r[i].filePath == FolderFilePath(folder, entry.fileName)
  {
    if IsCandidateFile(entry)
    then FaceEntries(folder, entry.fileName, entry.scan.faceNames, entry.scan.firstFace)
    else []
  }

  /** The entries of the folder source, in directory order, then face order. */
  function FolderEntries(folder: string, listing: seq<DirEntry>): (r: seq<FontItem>)
    ensures forall i :: 0 <= i < |r| ==> !r[i].isSystemFont
  {
    if listing == [] then []
    else FolderEntries(folder, listing[..|listing| - 1]) + FileEntries(folder, listing[|listing| - 1])
  }

  /** One more directory entry adds that entry's faces. */
  lemma FolderEntriesStep(folder: string, listing: seq<DirEntry>, k: nat)
    requires k < |listing|
    ensures FolderEntries(folder, listing[..k + 1]) == FolderEntries(folder, listing[..k]) + FileEntries(folder, listing[k])
  {
    assert listing[..k + 1][..k] == listing[..k];
  }

  /** All entries in enumeration order, before deduplication. Nothing without a
      DirectWrite factory or when the system collection cannot be obtained (the
      folder is then not scanned either); the folder adds nothing when it is
      missing or cannot be listed (`listing` None). */
  function Candidates(factoryPresent: bool, system: Option<seq<SystemFamily>>,
                      folder: string, listing: Option<seq<DirEntry>>): seq<FontItem>
  {
    if !factoryPresent || system.None? then []
    else SystemEntries(system.value) + (if listing.Some? then FolderEntries(folder, listing.value) else [])
  }

  //------------------------------------------------------------------
  //  Deduplication
  //------------------------------------------------------------------

  /** The lowercased names of a sequence of entries (the `seenNames` set). */
  function Keys(s: seq<FontItem>): set<string>
  {
    if s == [] then {} else Keys(s[..|s| - 1]) + {NameKey(s[|s| - 1])}
  }

  lemma {:induction false} KeysMember(s: seq<FontItem>, k: string)
    ensures k in Keys(s) <==> exists i :: 0 <= i < |s| && NameKey(s[i]) == k
  {
    if s != [] {
      var init := s[..|s| - 1];
      KeysMember(init, k);
      if exists i :: 0 <= i < |init| && NameKey(init[i]) == k {
        var i :| 0 <= i < |init| && NameKey(init[i]) == k;
        assert NameKey(s[i]) == k;
      }
      if exists i :: 0 <= i < |s| && NameKey(s[i]) == k {
        var i :| 0 <= i < |s| && NameKey(s[i]) == k;
        if i < |init| {
          assert NameKey(init[i]) == k;
        }
      }
    }
  }

  /** One step of either enumeration loop: keep the candidate unless its name was seen. */
  function Admit(kept: seq<FontItem>, candidate: FontItem): seq<FontItem>
  {
    if NameKey(candidate) in Keys(kept) then kept else kept + [candidate]
  }

  /** The list after offering every candidate in order to `Admit`. */
  function DedupOnto(kept: seq<FontItem>, candidates: seq<FontItem>): seq<FontItem>
  {
    if candidates == [] then kept
    else Admit(DedupOnto(kept, candidates[..|candidates| - 1]), candidates[|candidates| - 1])
  }

  /** The catalog: the candidates deduplicated, first occurrence wins. */
  function Dedup(candidates: seq<FontItem>): seq<FontItem>
  {
    DedupOnto([], candidates)
  }

  /** Appending one entry adds its name to the set of names. */
  lemma KeysSnoc(s: seq<FontItem>, x: FontItem)
    ensures Keys(s + [x]) == Keys(s) + {NameKey(x)}
  {
    assert (s + [x])[..|s|] == s;
  }

  /** Offering one more candidate is one more `Admit`. */
  lemma DedupOntoSnoc(kept: seq<FontItem>, c: seq<FontItem>, x: FontItem)
    ensures DedupOnto(kept, c + [x]) == Admit(DedupOnto(kept, c), x)
  {
    assert (c + [x])[..|c|] == c;
  }

  /** No two entries share a lowercased name. */
  predicate DistinctNames(s: seq<FontItem>)
  {
    forall i, j :: 0 <= i < j < |s| ==> NameKey(s[i]) != NameKey(s[j])
  }

  /** Entry `i` is the first of the candidates with its lowercased name. */
  predicate IsFirstOfName(c: seq<FontItem>, i: nat)
    requires i < |c|
  {
    forall j :: 0 <= j < i ==> NameKey(c[j]) != NameKey(c[i])
  }

  /** Reference definition of the catalog: the candidates among the first `n`
      that are the first of their name, in candidate order. */
  function FirstOccurrences(c: seq<FontItem>, n: nat): seq<FontItem>
    requires n <= |c|
  {
    if n == 0 then []
    else FirstOccurrences(c, n - 1) + (if IsFirstOfName(c, n - 1) then [c[n - 1]] else [])
  }

  /** Offering candidates in two batches is offering them all at once; this is
      why the folder pass can continue from the system pass' list and set. */
  lemma {:induction false} DedupOntoAppend(kept: seq<FontItem>, a: seq<FontItem>, b: seq<FontItem>)
    ensures DedupOnto(kept, a + b) == DedupOnto(DedupOnto(kept, a), b)
  {
    if b == [] {
      assert a + b == a;
    } else {
      var b' := b[..|b| - 1];
      assert (a + b)[..|a + b| - 1] == a + b';
      assert (a + b)[|a + b| - 1] == b[|b| - 1];
      DedupOntoAppend(kept, a, b');
    }
  }

  /** A candidate is the first of its name exactly when no earlier candidate has its name. */
  lemma FirstOfNameIffUnseen(c: seq<FontItem>, i: nat)
    requires i < |c|
    ensures IsFirstOfName(c, i) <==> NameKey(c[i]) !in Keys(c[..i])
  {
    KeysMember(c[..i], NameKey(c[i]));
    if NameKey(c[i]) in Keys(c[..i]) {
      var j :| 0 <= j < i && NameKey(c[..i][j]) == NameKey(c[i]);
      assert NameKey(c[j]) == NameKey(c[i]);
    }
  }

  /** Deduplication keeps every name and only the first entry of each name, in order. */
  lemma {:induction false} DedupIsFirstOccurrences(c: seq<FontItem>, n: nat)
    requires n <= |c|
    ensures Dedup(c[..n]) == FirstOccurrences(c, n)
    ensures Keys(Dedup(c[..n])) == Keys(c[..n])
  {
    if n > 0 {
      var prefix := c[..n - 1];
      var x := c[n - 1];
      DedupIsFirstOccurrences(c, n - 1);
      var d := Dedup(prefix);
      assert Dedup(c[..n]) == Admit(d, x) && Keys(c[..n]) == Keys(prefix) + {NameKey(x)} by {
        assert c[..n] == prefix + [x];
        DedupOntoSnoc([], prefix, x);
        KeysSnoc(prefix, x);
      }
      FirstOfNameIffUnseen(c, n - 1);
      assert prefix == c[..n - 1];
      if NameKey(x) in Keys(prefix) {
        assert Admit(d, x) == d;
        assert FirstOccurrences(c, n) == FirstOccurrences(c, n - 1);
      } else {
        assert Admit(d, x) == d + [x];
        assert FirstOccurrences(c, n) == FirstOccurrences(c, n - 1) + [x];
        KeysSnoc(d, x);
      }
    } else {
      assert c[..0] == [];
    }
  }

  /** Offering candidates to a list without repeated names keeps it without repeated names. */
  lemma {:induction false} DedupOntoDistinct(kept: seq<FontItem>, c: seq<FontItem>)
    requires DistinctNames(kept)
    ensures DistinctNames(DedupOnto(kept, c))
  {
    if c != [] {
      var before := DedupOnto(kept, c[..|c| - 1]);
      DedupOntoDistinct(kept, c[..|c| - 1]);
      var x := c[|c| - 1];
      if NameKey(x) !in Keys(before) {
        forall i | 0 <= i < |before| ensures NameKey(before[i]) != NameKey(x) {
          KeysMember(before, NameKey(x));
        }
      }
    }
  }

  /** Every entry of `FirstOccurrences` is the first candidate of its name. */
  lemma {:induction false} FirstOccurrencesAreFirsts(c: seq<FontItem>, n: nat, k: nat)
    requires n <= |c| && k < |FirstOccurrences(c, n)|
    ensures exists i :: 0 <= i < n && FirstOccurrences(c, n)[k] == c[i] && IsFirstOfName(c, i)
  {
    var init := FirstOccurrences(c, n - 1);
    if k < |init| {
      FirstOccurrencesAreFirsts(c, n - 1, k);
      var i :| 0 <= i < n - 1 && init[k] == c[i] && IsFirstOfName(c, i);
      assert FirstOccurrences(c, n)[k] == c[i];
    } else {
      assert FirstOccurrences(c, n)[k] == c[n - 1];
    }
  }

  //------------------------------------------------------------------
  //  The catalog
  //------------------------------------------------------------------

  /** The list `EnumerateFonts` builds. */
  function BuildCatalog(factoryPresent: bool, system: Option<seq<SystemFamily>>,
                   folder: string, listing: Option<seq<DirEntry>>): seq<FontItem>
  {
    Dedup(Candidates(factoryPresent, system, folder, listing))
  }

  /** The catalog holds no two entries with the same lowercased name, holds
      every name some source yields, and is exactly the first entry of each
      name in enumeration order (system families before folder faces); a later
      duplicate is dropped and changes nothing else. */
  lemma CatalogIsFirstOccurrences(factoryPresent: bool, system: Option<seq<SystemFamily>>,
                                  folder: string, listing: Option<seq<DirEntry>>)
    ensures var c := Candidates(factoryPresent, system, folder, listing);
            var r := BuildCatalog(factoryPresent, system, folder, listing);
            DistinctNames(r) && Keys(r) == Keys(c) && r == FirstOccurrences(c, |c|)
  {
    var c := Candidates(factoryPresent, system, folder, listing);
    DedupOntoDistinct([], c);
    DedupIsFirstOccurrences(c, |c|);
    assert c[..|c|] == c;
  }

  /** A system family wins over a folder face of the same lowercased name:
      every catalog entry whose name some system family yields is a system entry. */
  lemma SystemFamiliesWin(factoryPresent: bool, system: Option<seq<SystemFamily>>,
                          folder: string, listing: Option<seq<DirEntry>>, k: nat)
    requires system.Some? && k < |BuildCatalog(factoryPresent, system, folder, listing)|
    requires NameKey(BuildCatalog(factoryPresent, system, folder, listing)[k]) in Keys(SystemEntries(system.value))
    ensures BuildCatalog(factoryPresent, system, folder, listing)[k].isSystemFont
  {
    var c := Candidates(factoryPresent, system, folder, listing);
    var s := SystemEntries(system.value);
    var r := BuildCatalog(factoryPresent, system, folder, listing);
    CatalogIsFirstOccurrences(factoryPresent, system, folder, listing);
    FirstOccurrencesAreFirsts(c, |c|, k);
    var i :| 0 <= i < |c| && r[k] == c[i] && IsFirstOfName(c, i);
    KeysMember(s, NameKey(r[k]));
    var j :| 0 <= j < |s| && NameKey(s[j]) == NameKey(r[k]);
    assert c[j] == s[j];
    assert i <= j;
    assert c[i] == s[i];
  }
}
