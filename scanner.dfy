/**
 * Library-scan aggregation (ScannerService and its ParseFiles visitor): the
 * folds that derive a directory's type, year and common attributes from its
 * children, the name tests, the title fallback, the folder content tally and
 * the visitor's counters and new/updated partition.
 */
module Scanner {
  import opened Wrappers
  import opened Text
  import opened Media
  import MediaFiles

  // ----- Directory media type -----

  datatype DirectoryMediaType = NoMedia | AudioMedia | VideoMedia | MixedMedia

  predicate HasChildOfType(children: seq<MediaElement>, t: MediaElementType)
  {
    exists k :: 0 <= k < |children| && children[k].elementType == t
  }

  /** getDirectoryMediaType: the shared type of the audio and video children, MIXED once two differ. */
  method GetDirectoryMediaType(children: seq<MediaElement>) returns (r: DirectoryMediaType)
    ensures r == NoMedia <==> !HasChildOfType(children, Audio) && !HasChildOfType(children, Video)
    ensures r == AudioMedia <==> HasChildOfType(children, Audio) && !HasChildOfType(children, Video)
    ensures r == VideoMedia <==> HasChildOfType(children, Video) && !HasChildOfType(children, Audio)
    ensures r == MixedMedia <==> HasChildOfType(children, Audio) && HasChildOfType(children, Video)
  {
    r := NoMedia;
    var i := 0;
    while i < |children|
      invariant 0 <= i <= |children|
      invariant r != MixedMedia
      invariant r == NoMedia <==> !HasChildOfType(children[..i], Audio) && !HasChildOfType(children[..i], Video)
      invariant r == AudioMedia <==> HasChildOfType(children[..i], Audio) && !HasChildOfType(children[..i], Video)
      invariant r == VideoMedia <==> HasChildOfType(children[..i], Video) && !HasChildOfType(children[..i], Audio)
    {
      var child := children[i];
      assert children[..i + 1] == children[..i] + [child];
      if child.elementType == Audio || child.elementType == Video {
        var childType := if child.elementType == Audio then AudioMedia else VideoMedia;
        if r == NoMedia {
          r := childType;
        } else if childType != r {
          assert children[..i + 1][i] == child;
          assert HasChildOfType(children, Audio) && HasChildOfType(children, Video) by {
            var j :| 0 <= j < i && children[..i][j].elementType == (if child.elementType == Audio then Video else Audio);
            assert children[j] == children[..i][j];
          }
          return MixedMedia;
        }
      }
      assert forall t :: HasChildOfType(children[..i + 1], t) <==> HasChildOfType(children[..i], t) || child.elementType == t by {
        forall t ensures HasChildOfType(children[..i + 1], t) <==> HasChildOfType(children[..i], t) || child.elementType == t {
          if HasChildOfType(children[..i + 1], t) {
            var j :| 0 <= j < i + 1 && children[..i + 1][j].elementType == t;
            if j < i {
              assert children[..i][j] == children[..i + 1][j];
            }
          }
          if HasChildOfType(children[..i], t) {
            var j :| 0 <= j < i && children[..i][j].elementType == t;
            assert children[..i + 1][j] == children[..i][j];
          }
          if child.elementType == t {
            assert children[..i + 1][i] == child;
          }
        }
      }
      i := i + 1;
    }
    assert children[..i] == children;
  }

  // ----- Directory year -----

  /** A child that contributes a year: not a directory, and with a positive year. */
  predicate Dated(e: MediaElement)
  {
    e.elementType != Directory && e.year > 0
  }

  /** getDirectoryYear: the year every dated child shares, or 0 when none is dated or two differ. */
  method GetDirectoryYear(children: seq<MediaElement>) returns (year: int)
    ensures year != 0 ==> year > 0 && forall k :: 0 <= k < |children| && Dated(children[k]) ==> children[k].year == year
    ensures year != 0 ==> exists k :: 0 <= k < |children| && Dated(children[k])
    ensures year == 0 ==>
      || (forall k :: 0 <= k < |children| ==> !Dated(children[k]))
      || (exists j, k :: 0 <= j < k < |children| && Dated(children[j]) && Dated(children[k]) && children[j].year != children[k].year)
  {
    year := 0;
    var i := 0;
    while i < |children|
      invariant 0 <= i <= |children|
      invariant year == 0 <==> forall k :: 0 <= k < i ==> !Dated(children[k])
      invariant year != 0 ==> year > 0 && forall k :: 0 <= k < i && Dated(children[k]) ==> children[k].year == year
    {
      var child := children[i];
      if child.elementType != Directory {
        if child.year > 0 {
          if year == 0 {
            year := child.year;
          } else if child.year != year {
            var j :| 0 <= j < i && Dated(children[j]);
            assert children[j].year == year;
            return 0;
          }
        }
      }
      i := i + 1;
    }
  }

  // ----- Common attributes -----

  function Artist(e: MediaElement): Option<string> { e.artist }
  function AlbumArtist(e: MediaElement): Option<string> { e.albumArtist }
  function Collection(e: MediaElement): Option<string> { e.collection }
  function Description(e: MediaElement): Option<string> { e.description }

  /** A child of the given type that has the attribute set. */
  predicate Carries(e: MediaElement, t: MediaElementType, attribute: MediaElement -> Option<string>)
  {
    e.elementType == t && attribute(e).Some?
  }

  /**
   * The result of a common-attribute fold: the one value every carrying child
   * has, or none when no child carries it or two carry different values.
   */
  predicate IsCommonValue(children: seq<MediaElement>, t: MediaElementType, attribute: MediaElement -> Option<string>, r: Option<string>)
  {
    && (r.Some? ==> forall k :: 0 <= k < |children| && Carries(children[k], t, attribute) ==> attribute(children[k]) == r)
    && (r.Some? ==> exists k :: 0 <= k < |children| && Carries(children[k], t, attribute))
    && (r.None? ==>
          || (forall k :: 0 <= k < |children| ==> !Carries(children[k], t, attribute))
          || (exists j, k :: 0 <= j < k < |children| && Carries(children[j], t, attribute) && Carries(children[k], t, attribute) &&
                             attribute(children[j]) != attribute(children[k])))
  }

  /** The loop shared by getDirectoryArtist, getDirectoryAlbumArtist, getDirectoryCollection and getDirectoryDescription. */
  method CommonAttribute(children: seq<MediaElement>, t: MediaElementType, attribute: MediaElement -> Option<string>)
    returns (r: Option<string>)
    ensures IsCommonValue(children, t, attribute, r)
  {
    r := None;
    var i := 0;
    while i < |children|
      invariant 0 <= i <= |children|
      invariant r.None? <==> forall k :: 0 <= k < i ==> !Carries(children[k], t, attribute)
      invariant r.Some? ==> forall k :: 0 <= k < i && Carries(children[k], t, attribute) ==> attribute(children[k]) == r
    {
      var child := children[i];
      if child.elementType == t {
        if attribute(child).Some? {
          if r.None? {
            r := attribute(child);
          } else if attribute(child).value != r.value {
            var j :| 0 <= j < i && Carries(children[j], t, attribute);
            assert attribute(children[j]) != attribute(children[i]);
            return None;
          }
        }
      }
      i := i + 1;
    }
  }

  /** getDirectoryArtist: the common artist of the audio children. */
  method GetDirectoryArtist(children: seq<MediaElement>) returns (r: Option<string>)
    ensures IsCommonValue(children, Audio, Artist, r)
  {
    r := CommonAttribute(children, Audio, Artist);
  }

  /** getDirectoryAlbumArtist: the common album artist of the audio children. */
  method GetDirectoryAlbumArtist(children: seq<MediaElement>) returns (r: Option<string>)
    ensures IsCommonValue(children, Audio, AlbumArtist, r)
  {
    r := CommonAttribute(children, Audio, AlbumArtist);
  }

  /** getDirectoryCollection: the common collection of the video children. */
  method GetDirectoryCollection(children: seq<MediaElement>) returns (r: Option<string>)
    ensures IsCommonValue(children, Video, Collection, r)
  {
    r := CommonAttribute(children, Video, Collection);
  }

  /** getDirectoryDescription: the common description of the audio children. */
  method GetDirectoryDescription(children: seq<MediaElement>) returns (r: Option<string>)
    ensures IsCommonValue(children, Audio, Description, r)
  {
    r := CommonAttribute(children, Audio, Description);
  }

  // ----- Name tests -----

  /** EXCLUDED_FILE_NAMES split at its commas. */
  const ExcludedNames: seq<string> := ["Extras", "extras"]

  /** INFO_FILE_TYPES. */
  const InfoFileTypes: seq<string> := ["nfo"]

  /** isExcluded: the name equals one of the excluded names exactly. */
  method IsExcluded(name: string) returns (r: bool)
    ensures r <==> name == "Extras" || name == "extras"
  {
    var i := 0;
    while i < |ExcludedNames|
      invariant 0 <= i <= |ExcludedNames|
      invariant forall k :: 0 <= k < i ==> name != ExcludedNames[k]
    {
      if name == ExcludedNames[i] {
        return true;
      }
      i := i + 1;
    }
    assert ExcludedNames[0] == "Extras" && ExcludedNames[1] == "extras";
    return false;
  }

  /** isInfoFile: the lower-cased name ends with "." and an info-file type. */
  method IsInfoFile(name: string) returns (r: bool)
    ensures r <==> EndsWith(Lower(name), ".nfo")
  {
    var lower := Lower(name);
    var i := 0;
    while i < |InfoFileTypes|
      invariant 0 <= i <= |InfoFileTypes|
      invariant forall k :: 0 <= k < i ==> !EndsWith(lower, "." + InfoFileTypes[k])
    {
      var suffix := "." + InfoFileTypes[i];
      if EndsWith(lower, suffix) {
        assert suffix == ".nfo";
        return true;
      }
      i := i + 1;
    }
    assert "." + InfoFileTypes[0] == ".nfo";
    return false;
  }

  // ----- Title fallback -----

  /**
   * parseFileName when the name does not match the title pattern: a directory
   * keeps its whole name; a file drops the text from its last '.'.
   */
  function FallbackTitle(name: string, isDirectory: bool): (r: string)
    ensures isDirectory || '.' !in name ==> r == name
    ensures !isDirectory && '.' in name ==> |r| < |name| && r == name[..|r|] && name[|r|] == '.' && '.' !in name[|r| + 1..]
  {
    if isDirectory then name
    else
      var extensionIndex := LastIndexOf(name, '.');
      if extensionIndex == -1 then name else name[..extensionIndex]
  }

  /** The title and the raw extension put back together give the file name. */
  lemma TitleAndExtensionRebuildName(name: string)
    requires '.' in name
    ensures FallbackTitle(name, false) + "." + MediaFiles.RawExtension(name) == name
  {
    var i := LastIndexOf(name, '.');
    assert name == name[..i] + [name[i]] + name[i + 1..];
  }

  // ----- Folder content type -----

  datatype ContentType = Unknown | AudioContent | VideoContent | PlaylistContent

  function CountOfType(elements: seq<MediaElement>, t: MediaElementType): (r: nat)
    ensures r <= |elements|
    ensures r == 0 <==> !HasChildOfType(elements, t)
    decreases |elements|
  {
    if elements == [] then 0
    else
      var last := elements[|elements| - 1];
      var r := CountOfType(elements[..|elements| - 1], t);
      assert forall k :: 0 <= k < |elements| - 1 ==> elements[k] == elements[..|elements| - 1][k];
      r + if last.elementType == t then 1 else 0
  }

  /** The folder type the tally settles on, given the audio and video counts and the number of playlists. */
  function TalliedType(current: Option<ContentType>, audio: nat, video: nat, playlists: nat): (r: Option<ContentType>)
    ensures current.Some? && current.value != Unknown ==> r == current
    ensures r != current ==> r.Some? && r.value != Unknown
    ensures (current.None? || current == Some(Unknown)) ==>
      && (audio == 0 && video == 0 && playlists > 0 <==> r == Some(PlaylistContent))
      && (audio > video <==> r == Some(AudioContent))
      && (video > audio <==> r == Some(VideoContent))
  {
    if current.Some? && current.value != Unknown then current
    else if audio == 0 && video == 0 && playlists > 0 then Some(PlaylistContent)
    else if audio > video then Some(AudioContent)
    else if video > audio then Some(VideoContent)
    else current
  }

  /** The folder-type block of scanMediaFolder: recomputed only for a folder of unknown type. */
  method TallyFolderType(current: Option<ContentType>, elements: seq<MediaElement>, playlists: nat) returns (r: Option<ContentType>)
    ensures r == TalliedType(current, CountOfType(elements, Audio), CountOfType(elements, Video), playlists)
  {
    r := current;
    if current.None? || current.value == Unknown {
      var audio, video := 0, 0;
      var i := 0;
      while i < |elements|
        invariant 0 <= i <= |elements|
        invariant audio == CountOfType(elements[..i], Audio) && video == CountOfType(elements[..i], Video)
      {
        assert elements[..i + 1][..i] == elements[..i];
        if elements[i].elementType == Audio {
          audio := audio + 1;
        } else if elements[i].elementType == Video {
          video := video + 1;
        }
        i := i + 1;
      }
      assert elements[..i] == elements;
      if audio == 0 && video == 0 && playlists > 0 {
        r := Some(PlaylistContent);
      } else if audio > video {
        r := Some(AudioContent);
      } else if video > audio {
        r := Some(VideoContent);
      }
    }
  }

  /** The tally does not depend on the order in which elements were found. */
  lemma {:induction false} CountOfTypeReorder(a: seq<MediaElement>, b: seq<MediaElement>, t: MediaElementType)
    requires multiset(a) == multiset(b)
    ensures CountOfType(a, t) == CountOfType(b, t)
    decreases |a|
  {
    if a != [] {
      var last := a[|a| - 1];
      assert last in multiset(b);
      var j :| 0 <= j < |b| && b[j] == last;
      var b' := b[..j] + b[j + 1..];
      assert b == b[..j] + [b[j]] + b[j + 1..];
      assert a == a[..|a| - 1] + [last];
      assert multiset(a) == multiset(a[..|a| - 1]) + multiset{last};
      assert multiset(b) == multiset(b[..j]) + multiset{b[j]} + multiset(b[j + 1..]);
      assert multiset(b') == multiset(b[..j]) + multiset(b[j + 1..]);
      assert multiset(a[..|a| - 1]) == multiset(a) - multiset{last};
      assert multiset(b') == multiset(b) - multiset{last};
      CountOfTypeReorder(a[..|a| - 1], b', t);
      CountOfTypeSplit(b[..j], b[j], b[j + 1..], t);
    }
  }

  /** Counting across a removed position. */
  lemma {:induction false} CountOfTypeSplit(x: seq<MediaElement>, e: MediaElement, y: seq<MediaElement>, t: MediaElementType)
    ensures CountOfType(x + [e] + y, t) == CountOfType(x + y, t) + (if e.elementType == t then 1 else 0)
    decreases |y|
  {
    if y == [] {
      assert x + [e] + y == x + [e];
      assert (x + [e])[..|x|] == x;
      assert x + y == x;
    } else {
      var y' := y[..|y| - 1];
      CountOfTypeSplit(x, e, y', t);
      assert (x + [e] + y)[..|x + [e] + y| - 1] == x + [e] + y';
      assert (x + y)[..|x + y| - 1] == x + y';
    }
  }

  // ----- The ParseFiles visitor -----

  /** What visitFile recognised a file as. */
  datatype FileKind = MediaFile | PlaylistFile | InfoFile | OtherFile

  /** The element after the partition step: new elements keep their stamp, others are re-stamped. */
  function Stamped(e: MediaElement, scanTime: int): MediaElement
  {
    if e.lastScanned == scanTime then e else e.(lastScanned := scanTime)
  }

  /** The elements of a run that are new in this scan (already stamped with the scan time). */
  function NewOnes(elements: seq<MediaElement>, scanTime: int): (r: seq<MediaElement>)
    ensures |r| <= |elements|
    ensures forall e :: e in r ==> e in elements && e.lastScanned == scanTime
    decreases |elements|
  {
    if elements == [] then []
    else
      var prev := NewOnes(elements[..|elements| - 1], scanTime);
      var last := elements[|elements| - 1];
      if last.lastScanned == scanTime then prev + [last] else prev
  }

  /** The elements of a run that existed before, re-stamped with the scan time. */
  function UpdatedOnes(elements: seq<MediaElement>, scanTime: int): (r: seq<MediaElement>)
    ensures |r| <= |elements|
    ensures forall e :: e in r ==> e.lastScanned == scanTime
    decreases |elements|
  {
    if elements == [] then []
    else
      var prev := UpdatedOnes(elements[..|elements| - 1], scanTime);
      var last := elements[|elements| - 1];
      if last.lastScanned == scanTime then prev else prev + [last.(lastScanned := scanTime)]
  }

  /** Every element lands in exactly one of the two lists. */
  lemma {:induction false} PartitionSizes(elements: seq<MediaElement>, scanTime: int)
    ensures |NewOnes(elements, scanTime)| + |UpdatedOnes(elements, scanTime)| == |elements|
    decreases |elements|
  {
    if elements != [] {
      PartitionSizes(elements[..|elements| - 1], scanTime);
    }
  }

  /** Stamped elements land unchanged in the first list, the others re-stamped in the second. */
  lemma {:induction false} PartitionIsExact(elements: seq<MediaElement>, scanTime: int)
    ensures forall k :: 0 <= k < |elements| && elements[k].lastScanned == scanTime ==> elements[k] in NewOnes(elements, scanTime)
    ensures forall k :: 0 <= k < |elements| && elements[k].lastScanned != scanTime ==>
      elements[k].(lastScanned := scanTime) in UpdatedOnes(elements, scanTime)
    decreases |elements|
  {
    if elements != [] {
      var n := |elements| - 1;
      var prefix := elements[..n];
      var last := elements[n];
      PartitionIsExact(prefix, scanTime);
      var added, updated := NewOnes(prefix, scanTime), UpdatedOnes(prefix, scanTime);
      assert NewOnes(elements, scanTime) == if last.lastScanned == scanTime then added + [last] else added;
      assert UpdatedOnes(elements, scanTime) == if last.lastScanned == scanTime then updated else updated + [last.(lastScanned := scanTime)];
      forall k | 0 <= k < n
        ensures elements[k] == prefix[k]
      {
      }
    }
  }

  /** The partition loop of postVisitDirectory. */
  method Partition(elements: seq<MediaElement>, scanTime: int) returns (added: seq<MediaElement>, updated: seq<MediaElement>)
    ensures added == NewOnes(elements, scanTime) && updated == UpdatedOnes(elements, scanTime)
  {
    added, updated := [], [];
    var i := 0;
    while i < |elements|
      invariant 0 <= i <= |elements|
      invariant added == NewOnes(elements[..i], scanTime) && updated == UpdatedOnes(elements[..i], scanTime)
    {
      assert elements[..i + 1][..i] == elements[..i];
      var element := elements[i];
      if element.lastScanned == scanTime {
        added := added + [element];
      } else {
        element := element.(lastScanned := scanTime);
        updated := updated + [element];
      }
      i := i + 1;
    }
    assert elements[..i] == elements;
  }

  /**
   * The visitor state that the scan's statistics and result lists live in.
   * `itemsScanned` is this visitor's share of the service-wide scan counter.
   */
  class ParseFiles {
    const scanTime: int
    var newElements: seq<MediaElement>
    var updatedElements: seq<MediaElement>
    var files: nat
    var folders: nat
    var playlists: nat
    var itemsScanned: nat

    /** Playlists are counted among the files, and every visited file or folder is one scanned item. */
    ghost predicate Valid()
      reads this
    {
      playlists <= files && itemsScanned == files + folders
    }

    constructor (scanTime: int)
      ensures this.scanTime == scanTime && Valid()
      ensures newElements == [] && updatedElements == [] && files == 0 && folders == 0 && playlists == 0
    {
      this.scanTime := scanTime;
      newElements, updatedElements := [], [];
      files, folders, playlists, itemsScanned := 0, 0, 0, 0;
    }

    /** The counter updates of visitFile. */
    method VisitFile(kind: FileKind)
      requires Valid()
      modifies this
      ensures Valid()
      ensures files == old(files) + (if kind == MediaFile || kind == PlaylistFile then 1 else 0)
      ensures playlists == old(playlists) + (if kind == PlaylistFile then 1 else 0)
      ensures folders == old(folders)
      ensures newElements == old(newElements) && updatedElements == old(updatedElements)
    {
      match kind
      case MediaFile =>
        itemsScanned := itemsScanned + 1;
        files := files + 1;
      case PlaylistFile =>
        itemsScanned := itemsScanned + 1;
        files := files + 1;
        playlists := playlists + 1;
      case _ =>
    }

    /**
     * postVisitDirectory's counters and partition: the children, then the
     * directory element itself when there is one, each go to the new list when
     * stamped with this scan and to the updated list, re-stamped, otherwise.
     */
    method PostVisitDirectory(children: seq<MediaElement>, directory: Option<MediaElement>)
      requires Valid()
      modifies this
      ensures Valid()
      ensures folders == old(folders) + 1 && files == old(files) && playlists == old(playlists)
      ensures var all := children + (if directory.Some? then [directory.value] else []);
        && newElements == old(newElements) + NewOnes(all, scanTime)
        && updatedElements == old(updatedElements) + UpdatedOnes(all, scanTime)
    {
      itemsScanned := itemsScanned + 1;
      folders := folders + 1;
      var all := children + (if directory.Some? then [directory.value] else []);
      var added, updated := Partition(all, scanTime);
      newElements := newElements + added;
      updatedElements := updatedElements + updated;
    }

    /** getTotal as written: files, folders and playlists added up. */
    function TotalAsWritten(): (r: nat)
      reads this
      ensures Valid() ==> r == itemsScanned + playlists
    {
      files + folders + playlists
    }

    /** The number of scanned items: files (playlists among them) and folders. */
    function Total(): (r: nat)
      reads this
      ensures Valid() ==> r == itemsScanned
    {
      files + folders
    }
  }

  /** getTotal counts every playlist twice: once as a file and once as a playlist. */
  lemma TotalOvercountsPlaylists(pf: ParseFiles)
    requires pf.Valid() && pf.playlists > 0
    ensures pf.TotalAsWritten() > pf.itemsScanned
    ensures pf.TotalAsWritten() - pf.Total() == pf.playlists
  {
  }
}
