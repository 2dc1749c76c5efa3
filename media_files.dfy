/**
 * File-name helpers (MediaUtils): extension extraction, the media-file test
 * against the supported extension list, and the directory-listing test.
 */
module MediaFiles {
  import opened Wrappers
  import opened Text

  /** The text after the last '.' of a name that has one. */
  function RawExtension(name: string): (r: string)
    requires '.' in name
    ensures '.' !in r
    ensures |r| < |name| && name[|name| - |r| - 1] == '.' && name[|name| - |r|..] == r
  {
    name[LastIndexOf(name, '.') + 1..]
  }

  /** getFileExtension: none without a '.', else the text after the last '.', lower-cased and trimmed. */
  function GetFileExtension(name: string): (r: Option<string>)
    ensures r.None? <==> '.' !in name
    ensures r.Some? ==> '.' !in r.value
    ensures r.Some? ==> r.value == Trim(Lower(RawExtension(name)))
    ensures r.Some? ==> forall c :: c in r.value ==> !('A' <= c <= 'Z')
  {
    if LastIndexOf(name, '.') == -1 then None
    else
      var raw := RawExtension(name);
      LowerTrimmedText(raw);
      Some(Trim(Lower(raw)))
  }

  /** Lower-casing and trimming text without a '.' leaves no '.' and no upper-case letter. */
  lemma LowerTrimmedText(raw: string)
    requires '.' !in raw
    ensures forall c :: c in Trim(Lower(raw)) ==> c != '.' && !('A' <= c <= 'Z')
  {
    var low := Lower(raw);
    forall c | c in Trim(low) ensures c != '.' && !('A' <= c <= 'Z') {
      assert c in low;
      var k :| 0 <= k < |low| && low[k] == c;
      assert c == LowerChar(raw[k]);
      assert raw[k] != '.' by {
        assert raw[k] in raw;
      }
    }
  }

  /** A name ends with "." followed by one of the extensions, ignoring case. */
  predicate HasMediaExtension(name: string, extensions: seq<string>)
  {
    exists k :: 0 <= k < |extensions| && EndsWith(Lower(name), "." + extensions[k])
  }

  /** isMediaFile: the first matching extension ends the search. */
  method IsMediaFile(name: string, extensions: seq<string>) returns (r: bool)
    ensures r <==> HasMediaExtension(name, extensions)
  {
    var lower := Lower(name);
    var i := 0;
    while i < |extensions|
      invariant 0 <= i <= |extensions|
      invariant forall k :: 0 <= k < i ==> !EndsWith(lower, "." + extensions[k])
    {
      if EndsWith(lower, "." + extensions[i]) {
        return true;
      }
      i := i + 1;
    }
    return false;
  }

  /** An upper-case extension still marks a media file: the test lower-cases the name. */
  lemma MediaExtensionIgnoresCase(name: string, extensions: seq<string>)
    ensures HasMediaExtension(name, extensions) <==> HasMediaExtension(Lower(name), extensions)
  {
    assert Lower(Lower(name)) == Lower(name);
  }

  /** One entry of a directory listing. */
  datatype Entry = Entry(hidden: bool, isDirectory: bool, name: string)

  /** A listing entry that containsMedia accepts. */
  predicate Qualifies(e: Entry, includeDir: bool, extensions: seq<string>)
  {
    !e.hidden && ((includeDir && e.isDirectory) || HasMediaExtension(e.name, extensions))
  }

  predicate HoldsMedia(listing: seq<Entry>, includeDir: bool, extensions: seq<string>)
  {
    exists k :: 0 <= k < |listing| && Qualifies(listing[k], includeDir, extensions)
  }

  /** containsMedia over a given listing of the directory. */
  method ContainsMedia(listing: seq<Entry>, includeDir: bool, extensions: seq<string>) returns (r: bool)
    ensures r <==> HoldsMedia(listing, includeDir, extensions)
    ensures r ==> exists k :: 0 <= k < |listing| && !listing[k].hidden
  {
    var i := 0;
    while i < |listing|
      invariant 0 <= i <= |listing|
      invariant forall k :: 0 <= k < i ==> !Qualifies(listing[k], includeDir, extensions)
    {
      var entry := listing[i];
      if !entry.hidden {
        if includeDir && entry.isDirectory {
          return true;
        }
        var media := IsMediaFile(entry.name, extensions);
        if media {
          return true;
        }
      }
      i := i + 1;
    }
    return false;
  }

  /** Counting subdirectories can only add media: false-mode implies true-mode. */
  lemma HoldsMediaMonotone(listing: seq<Entry>, extensions: seq<string>)
    ensures HoldsMedia(listing, false, extensions) ==> HoldsMedia(listing, true, extensions)
  {
  }

  /** Hidden entries never matter: dropping them leaves the answer unchanged. */
  lemma HiddenEntriesIgnored(listing: seq<Entry>, includeDir: bool, extensions: seq<string>, e: Entry)
    requires e.hidden
    ensures HoldsMedia(listing + [e], includeDir, extensions) <==> HoldsMedia(listing, includeDir, extensions)
  {
    if HoldsMedia(listing + [e], includeDir, extensions) {
      var k :| 0 <= k < |listing + [e]| && Qualifies((listing + [e])[k], includeDir, extensions);
      assert k < |listing| && listing[k] == (listing + [e])[k];
    }
    if HoldsMedia(listing, includeDir, extensions) {
      var k :| 0 <= k < |listing| && Qualifies(listing[k], includeDir, extensions);
      assert (listing + [e])[k] == listing[k];
    }
  }
}
