/** The catalog entry (`FontItem`) and the helpers that read its names. */
module Fonts {
  import opened Wrappers
  import opened Text

  /** One byte of a narrow `std::string`. */
  type Byte = b: int | 0 <= b < 256

  /** An axis tag as the plugin stores it: the bytes of a narrow string. */
  type TagString = seq<Byte>

  /** One `axisRanges` element: the tag and the axis' declared minimum and maximum. */
  datatype AxisRange = AxisRange(tag: TagString, minValue: real, maxValue: real)

  /** A selectable catalog entry: a system family or one face of a font file in the folder. */
  datatype FontItem = FontItem(
    displayName: string,
    filePath: string,        // empty for system entries
    isSystemFont: bool,
    axisTags: seq<TagString>,
    axisRanges: seq<AxisRange>)

  /** The marker that separates a folder face's family from its file name. */
  const FileSuffixMarker: string := " ["

  /** `displayName` of a folder face: `family [fileName]`. */
  function FolderDisplayName(family: string, fileName: string): string
  {
    family + FileSuffixMarker + fileName + "]"
  }

  /** `filePath` of a folder face: the folder, a backslash, the file name. */
  function FolderFilePath(folder: string, fileName: string): string
  {
    folder + "\\" + fileName
  }

  /** The deduplication and search key of an entry: its lowercased `displayName`. */
  function NameKey(item: FontItem): string
  {
    ToLower(item.displayName)
  }

  /** `ExtractFamilyName`: a folder entry's name cut at the first " [";
      a system entry's name, or a name without the marker, unchanged. */
  function ExtractFamilyName(item: FontItem): (family: string)
    ensures item.isSystemFont ==> family == item.displayName
    ensures !item.isSystemFont && !Contains(item.displayName, FileSuffixMarker) ==> family == item.displayName
    ensures !item.isSystemFont && Contains(item.displayName, FileSuffixMarker) ==>
              family + FileSuffixMarker <= item.displayName && !Contains(family, FileSuffixMarker)
  {
    if item.isSystemFont then item.displayName
    else
      match Find(item.displayName, FileSuffixMarker)
      case None => item.displayName
      case Some(pos) =>
        var family := item.displayName[..pos];
        assert family + FileSuffixMarker == item.displayName[..pos + 2];
        assert !Contains(family, FileSuffixMarker) by {
          forall j | 0 <= j <= |family| && OccursAt(family, FileSuffixMarker, j)
            ensures false
          {
            assert family[j..j + 2] == item.displayName[j..j + 2];
            assert OccursAt(item.displayName, FileSuffixMarker, j);
          }
        }
        family
  }

  /** Cutting a folder entry's name gives back the family it was built from,
      whenever the family itself has no " [" in it. */
  lemma {:induction false} FamilyOfFolderName(family: string, fileName: string, filePath: string,
                                              tags: seq<TagString>, ranges: seq<AxisRange>)
    requires !Contains(family, FileSuffixMarker)
    ensures ExtractFamilyName(FontItem(FolderDisplayName(family, fileName), filePath, false, tags, ranges)) == family
  {
    var name := FolderDisplayName(family, fileName);
    var n := |family|;
    assert OccursAt(name, FileSuffixMarker, n) by {
      assert name[n..n + 2] == FileSuffixMarker;
    }
    forall j | 0 <= j < n ensures !OccursAt(name, FileSuffixMarker, j)
    {
      if j + 2 <= n {
        if OccursAt(name, FileSuffixMarker, j) {
          assert family[j..j + 2] == name[j..j + 2];
          assert OccursAt(family, FileSuffixMarker, j);
        }
      } else {
        assert name[j + 1] == ' ';
      }
    }
    var r := Find(name, FileSuffixMarker);
    assert r.Some?;
    assert r.value == n;
  }
}
