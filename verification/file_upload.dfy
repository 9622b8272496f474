/**
 * Client-side checks of the file-upload service
 * (src/app/core/services/file-upload.service.ts): a MIME type against an allow-list,
 * and a byte count against a limit given in megabytes. The JavaScript string
 * operations the check relies on (`startsWith`, `endsWith`, `indexOf` and the
 * first-occurrence `replace`) are written out here.
 */
module FileUpload {
  import opened Wrappers

  // The wildcard marker of allow-list entries such as "image/*".
  const WildcardMarker: string := "/*"

  /** Bytes in one megabyte as the service counts them. */
  const BytesPerMegabyte: real := 1024.0 * 1024.0

  /** `s.startsWith(prefix)`. */
  predicate StartsWith(s: string, prefix: string) {
    |prefix| <= |s| && s[..|prefix|] == prefix
  }

  /** `s.endsWith(suffix)`. */
  predicate EndsWith(s: string, suffix: string) {
    |suffix| <= |s| && s[|s| - |suffix|..] == suffix
  }

  /** `pat` occurs in `s` starting at index `i`. */
  predicate OccursAt(s: string, pat: string, i: int) {
    0 <= i && i + |pat| <= |s| && s[i..i + |pat|] == pat
  }

  /** The first occurrence of `pat` in `s` at or after index `from`. */
  function IndexFrom(s: string, pat: string, from: nat): (r: Option<nat>)
    decreases |s| - from
    ensures r.Some? ==> from <= r.value && OccursAt(s, pat, r.value)
    ensures r.Some? ==> forall i :: from <= i < r.value ==> !OccursAt(s, pat, i)
    ensures r.None? ==> forall i :: from <= i ==> !OccursAt(s, pat, i)
  {
    if from + |pat| > |s| then None
    else if s[from..from + |pat|] == pat then Some(from)
    else IndexFrom(s, pat, from + 1)
  }

  /** `pat` occurs at `i` and nowhere before. */
  predicate FirstOccurrence(s: string, pat: string, i: int) {
    OccursAt(s, pat, i) && forall j :: 0 <= j < i ==> !OccursAt(s, pat, j)
  }

  lemma FirstOccurrenceIsUnique(s: string, pat: string, i: int, k: int)
    requires FirstOccurrence(s, pat, i) && FirstOccurrence(s, pat, k)
    ensures i == k
  {
  }

  /** `s.indexOf(pat)`, with no occurrence as `None`. */
  function IndexOf(s: string, pat: string): (r: Option<nat>)
    ensures r.Some? ==> OccursAt(s, pat, r.value) && forall i :: 0 <= i < r.value ==> !OccursAt(s, pat, i)
    ensures r.None? ==> forall i :: !OccursAt(s, pat, i)
  {
    IndexFrom(s, pat, 0)
  }

  /**
   * `s.replace(pat, rep)` with a string pattern and a replacement holding no `$`
   * pattern: only the first occurrence is replaced.
   */
  function ReplaceFirst(s: string, pat: string, rep: string): (r: string)
    ensures IndexOf(s, pat).None? ==> r == s
    ensures IndexOf(s, pat).Some? ==> |r| == |s| - |pat| + |rep|
    ensures IndexOf(s, pat).Some? ==>
      exists i :: FirstOccurrence(s, pat, i) && r == s[..i] + rep + s[i + |pat|..]
  {
    match IndexOf(s, pat)
    case None => s
    case Some(i) => s[..i] + rep + s[i + |pat|..]
  }

  // Whether one allow-list entry accepts a file type (the callback of `some`): an
  // entry ending in "/*" accepts the types that start with the entry with its first
  // "/*" cut out; any other entry accepts only the type equal to it.
  function EntryMatches(fileType: string, entry: string): (m: bool)
    ensures !EndsWith(entry, WildcardMarker) ==> (m <==> fileType == entry)
    ensures EndsWith(entry, WildcardMarker) ==> forall i :: FirstOccurrence(entry, WildcardMarker, i) ==>
      (m <==> StartsWith(fileType, entry[..i] + entry[i + |WildcardMarker|..]))
  {
    if EndsWith(entry, WildcardMarker) then
      FirstMarkerCut(entry);
      StartsWith(fileType, ReplaceFirst(entry, WildcardMarker, ""))
    else fileType == entry
  }

  // In an entry ending in "/*", removing the marker cuts out its first occurrence.
  lemma FirstMarkerCut(entry: string)
    requires EndsWith(entry, WildcardMarker)
    ensures exists i :: FirstOccurrence(entry, WildcardMarker, i)
    ensures forall i :: FirstOccurrence(entry, WildcardMarker, i) ==>
      ReplaceFirst(entry, WildcardMarker, "") == entry[..i] + entry[i + |WildcardMarker|..]
  {
    assert OccursAt(entry, WildcardMarker, |entry| - |WildcardMarker|);
    var k := IndexOf(entry, WildcardMarker).value;
    assert FirstOccurrence(entry, WildcardMarker, k);
    forall i | FirstOccurrence(entry, WildcardMarker, i)
      ensures ReplaceFirst(entry, WildcardMarker, "") == entry[..i] + entry[i + |WildcardMarker|..]
    {
      FirstOccurrenceIsUnique(entry, WildcardMarker, i, k);
    }
  }

  /** `validateFileType`: some entry of the allow-list accepts the file's type. */
  function ValidateFileType(fileType: string, allowedTypes: seq<string>): (ok: bool)
    ensures ok <==> exists i :: 0 <= i < |allowedTypes| && EntryMatches(fileType, allowedTypes[i])
    ensures |allowedTypes| == 0 ==> !ok
  {
    if |allowedTypes| == 0 then false
    else EntryMatches(fileType, allowedTypes[0]) || ValidateFileType(fileType, allowedTypes[1..])
  }

  /** `validateFileSize`: the size in bytes is at most `maxSizeMB` megabytes. */
  function ValidateFileSize(size: nat, maxSizeMB: real): (ok: bool)
    ensures ok <==> size as real / BytesPerMegabyte <= maxSizeMB
    ensures maxSizeMB < 0.0 ==> !ok
  {
    size as real <= maxSizeMB * BytesPerMegabyte
  }

  /** An entry without the wildcard marker accepts exactly the type equal to it. */
  lemma ExactEntryMatchesOnlyItself(fileType: string, entry: string)
    requires !EndsWith(entry, WildcardMarker)
    ensures EntryMatches(fileType, entry) <==> fileType == entry
  {
  }

  // An entry `base + "/*"` whose base holds no slash accepts every type that starts
  // with the base; nothing has to follow the base, not even a slash.
  lemma {:induction false} WildcardEntryMatchesByPrefix(fileType: string, base: string)
    requires forall i :: 0 <= i < |base| ==> base[i] != '/'
    ensures EntryMatches(fileType, base + WildcardMarker) <==> StartsWith(fileType, base)
  {
    var entry := base + WildcardMarker;
    assert EndsWith(entry, WildcardMarker) by {
      assert entry[|entry| - 2..] == WildcardMarker;
    }
    assert OccursAt(entry, WildcardMarker, |base|) by {
      assert entry[|base|..|base| + 2] == WildcardMarker;
    }
    forall i | 0 <= i < |base|
      ensures !OccursAt(entry, WildcardMarker, i)
    {
      assert entry[i] == base[i];
    }
    var found := IndexOf(entry, WildcardMarker);
    assert found == Some(|base|);
    assert ReplaceFirst(entry, WildcardMarker, "") == base by {
      assert entry[..|base|] == base;
      assert entry[|base| + 2..] == [];
    }
  }

  // "image/*" accepts a type that merely starts with "image", without the slash.
  lemma ImageWildcardNeedsNoSlash()
    ensures EntryMatches("imagery", "image/*")
    ensures !EntryMatches("text/plain", "image/*")
  {
    WildcardEntryMatchesByPrefix("imagery", "image");
    WildcardEntryMatchesByPrefix("text/plain", "image");
    assert "image" + WildcardMarker == "image/*";
    assert "imagery"[..5] == "image";
    assert "text/plain"[..5][0] == 't';
  }

  // "*/*" accepts only the types that start with "*".
  lemma StarSlashStarMatchesOnlyStarTypes(fileType: string)
    ensures EntryMatches(fileType, "*/*") <==> StartsWith(fileType, "*")
  {
    WildcardEntryMatchesByPrefix(fileType, "*");
    assert "*" + WildcardMarker == "*/*";
  }

  // Only the first marker is removed: "a/*b/*" has prefix "ab/*".
  lemma OnlyFirstMarkerRemoved()
    ensures ReplaceFirst("a/*b/*", WildcardMarker, "") == "ab/*"
  {
    assert OccursAt("a/*b/*", WildcardMarker, 1) by {
      assert "a/*b/*"[1..3] == WildcardMarker;
    }
    assert !OccursAt("a/*b/*", WildcardMarker, 0) by {
      assert "a/*b/*"[0] == 'a';
    }
    assert IndexOf("a/*b/*", WildcardMarker) == Some(1);
    assert "a/*b/*"[..1] + "" + "a/*b/*"[3..] == "ab/*";
  }

  /** Adding entries to the allow-list never turns an accepted file into a rejected one. */
  lemma AllowListGrowthKeepsAcceptance(fileType: string, allowed: seq<string>, larger: seq<string>)
    requires forall t :: t in allowed ==> t in larger
    requires ValidateFileType(fileType, allowed)
    ensures ValidateFileType(fileType, larger)
  {
    var i :| 0 <= i < |allowed| && EntryMatches(fileType, allowed[i]);
    assert allowed[i] in larger;
    var j :| 0 <= j < |larger| && larger[j] == allowed[i];
    assert EntryMatches(fileType, larger[j]);
  }

  /** The size limit is inclusive: exactly `mb` megabytes pass, one byte more does not. */
  lemma FileSizeLimitIsInclusive(mb: nat)
    ensures ValidateFileSize(mb * 1048576, mb as real)
    ensures !ValidateFileSize(mb * 1048576 + 1, mb as real)
  {
  }

  /** A smaller file under a larger limit passes whenever the original pair did. */
  lemma FileSizeMonotone(size: nat, smaller: nat, maxSizeMB: real, largerMB: real)
    requires ValidateFileSize(size, maxSizeMB)
    requires smaller <= size && maxSizeMB <= largerMB
    ensures ValidateFileSize(smaller, largerMB)
  {
  }

  // The default allow-list of the upload widget is "*/*", labelled "Any file type".
  // The rule above rejects every ordinary MIME type for it; the following is the
  // evidently intended rule, in which "*/*" accepts any type.

  /** The default allow-list of the upload widget, after `split(',')` and `trim()`. */
  const DefaultAccept: seq<string> := ["*/*"]

  /** As written, the default allow-list rejects an ordinary type such as "image/png". */
  lemma DefaultAcceptRejectsOrdinaryTypes()
    ensures !ValidateFileType("image/png", DefaultAccept)
  {
    StarSlashStarMatchesOnlyStarTypes("image/png");
    assert "image/png"[..1][0] == 'i';
  }

  // The intended entry rule: "*/*" accepts every type, other entries as before.
  predicate EntryMatchesIntended(fileType: string, entry: string) {
    entry == "*/*" || EntryMatches(fileType, entry)
  }

  /** The intended `validateFileType`. */
  function ValidateFileTypeIntended(fileType: string, allowedTypes: seq<string>): (ok: bool)
    ensures ok <==> exists i :: 0 <= i < |allowedTypes| && EntryMatchesIntended(fileType, allowedTypes[i])
  {
    if |allowedTypes| == 0 then false
    else EntryMatchesIntended(fileType, allowedTypes[0]) || ValidateFileTypeIntended(fileType, allowedTypes[1..])
  }

  // Under the intended rule an allow-list holding "*/*" accepts every type (the
  // default widget accepts "image/png"), and a list without it behaves as written.
  lemma IntendedRuleFixesAnyType(fileType: string, allowedTypes: seq<string>)
    ensures "*/*" in allowedTypes ==> ValidateFileTypeIntended(fileType, allowedTypes)
    ensures "*/*" !in allowedTypes ==>
      ValidateFileTypeIntended(fileType, allowedTypes) == ValidateFileType(fileType, allowedTypes)
    ensures ValidateFileTypeIntended("image/png", DefaultAccept)
  {
    if "*/*" in allowedTypes {
      var i :| 0 <= i < |allowedTypes| && allowedTypes[i] == "*/*";
      assert EntryMatchesIntended(fileType, allowedTypes[i]);
    }
    assert EntryMatchesIntended("image/png", DefaultAccept[0]);
  }
}
