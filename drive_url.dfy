/**
 * Extraction of a Google Drive file id from a sharable link
 * (`parseFileIdFromURL` in src/main.ts).
 *
 * The WHATWG URL parser behind `new URL(url).pathname` is not part of this
 * model: it is passed in as `pathnameOf`, which yields `None` where the
 * constructor throws.
 */
module DriveUrl {

  import opened Wrappers

  /** The path segment a sharable link starts with. */
  const Prefix: string := "/file/d/"
  /** The path segment a sharable link ends with. */
  const Suffix: string := "/view"

  /** `s.startsWith(p)` */
  predicate StartsWith(s: string, p: string) {
    p <= s
  }

  /** `s.endsWith(p)` */
  predicate EndsWith(s: string, p: string) {
    |p| <= |s| && s[|s| - |p|..] == p
  }

  /** `s` starts with `p` exactly when it is `p` followed by something. */
  lemma StartsWithIff(s: string, p: string)
    ensures StartsWith(s, p) <==> exists t :: p + t == s
  {
    if StartsWith(s, p) {
      assert p + s[|p|..] == s;
    }
  }

  /** `s` ends with `p` exactly when it is something followed by `p`. */
  lemma EndsWithIff(s: string, p: string)
    ensures EndsWith(s, p) <==> exists t :: t + p == s
  {
    if EndsWith(s, p) {
      assert s[..|s| - |p|] + p == s;
    }
  }

  /** The pathname of the sharable link for file `id`. */
  function DrivePath(id: string): string {
    Prefix + id + Suffix
  }

  /**
   * A relative index of `String.prototype.slice` resolved against a string of
   * length `len`: a negative index counts from the end, and both kinds are
   * clamped to `[0, len]`.
   */
  function SliceIndex(len: nat, k: int): (r: nat)
    ensures r <= len
    ensures 0 <= k <= len ==> r == k
    ensures -(len as int) <= k < 0 ==> r as int == len as int + k
  {
    if k < 0 then (if len + k < 0 then 0 else len + k)
    else if k > len then len
    else k
  }

  /** `s.slice(start, end)`: empty when the resolved end is not past the resolved start. */
  function Slice(s: string, start: int, end: int): (r: string)
    ensures |r| <= |s|
    ensures SliceIndex(|s|, end) <= SliceIndex(|s|, start) ==> r == ""
  {
    var from, to := SliceIndex(|s|, start), SliceIndex(|s|, end);
    if from >= to then "" else s[from..to]
  }

  /** How a call of `parseFileIdFromURL` ends. */
  datatype UrlId =
    | NoUrl                 // the argument is absent or empty: `undefined`, the URL is not looked at
    | InvalidUrl            // `new URL` throws, and the exception leaves the function
    | IllFormed             // the pathname is not a Drive link: a diagnostic, then `undefined`
    | Extracted(id: string) // what lies between the prefix and the suffix

  /**
   * The id between `/file/d/` and `/view` in the pathname of `url`. An absent
   * argument and the empty string are the same here, as both are falsy.
   */
  function ParseFileIdFromUrl(url: string, pathnameOf: string -> Option<string>): (r: UrlId)
    ensures url == "" <==> r.NoUrl?
    ensures r.InvalidUrl? <==> url != "" && pathnameOf(url).None?
  {
    if url == "" then NoUrl
    else match pathnameOf(url)
      case None => InvalidUrl
      case Some(p) =>
        if !StartsWith(p, Prefix) || !EndsWith(p, Suffix) then IllFormed
        else Extracted(Slice(p, |Prefix|, -|Suffix|))
  }

  /** A pathname that is reported ill-formed is exactly one that lacks the prefix or the suffix. */
  lemma IllFormedIff(url: string, pathnameOf: string -> Option<string>)
    requires url != "" && pathnameOf(url).Some?
    ensures ParseFileIdFromUrl(url, pathnameOf).IllFormed?
        <==> !StartsWith(pathnameOf(url).value, Prefix) || !EndsWith(pathnameOf(url).value, Suffix)
  {
  }

  /**
   * The prefix and the suffix may share their slash, so the shortest pathname
   * that passes both checks is `/file/d/view`, one character shorter than
   * the two literals together.
   */
  lemma ShortestDrivePath(p: string)
    requires StartsWith(p, Prefix) && EndsWith(p, Suffix)
    ensures |p| >= |Prefix| + |Suffix| - 1
  {
    if |p| < |Prefix| + |Suffix| - 1 {
      // both literals fix the character at index |p| - 5, never to the same value
      // (at |p| - 4 when |p| is 10, where both put a slash at |p| - 5)
      var k := if |p| == 10 then |p| - |Suffix| + 1 else |p| - |Suffix|;
      SharedCharacter(p, k);
      assert false;
    }
  }

  /** The character at index `k` of `p` as the prefix and the suffix both fix it. */
  lemma SharedCharacter(p: string, k: nat)
    requires StartsWith(p, Prefix) && EndsWith(p, Suffix)
    requires |p| - |Suffix| <= k < |Prefix|
    ensures p[k] == Prefix[k] == Suffix[k - (|p| - |Suffix|)]
  {
  }

  /**
   * What an extracted id is: when the pathname is longer than the two literals
   * together, the id is the part between them and completes the pathname;
   * otherwise the literals overlap or touch and the id is empty.
   */
  lemma ExtractedShape(url: string, pathnameOf: string -> Option<string>)
    requires ParseFileIdFromUrl(url, pathnameOf).Extracted?
    ensures pathnameOf(url).Some?
    ensures var p, id := pathnameOf(url).value, ParseFileIdFromUrl(url, pathnameOf).id;
      && |p| >= |Prefix| + |Suffix| - 1
      && (|p| <= |Prefix| + |Suffix| ==> id == "")
      && (|p| >= |Prefix| + |Suffix| ==> |id| == |p| - |Prefix| - |Suffix| && DrivePath(id) == p)
  {
    var p := pathnameOf(url).value;
    var id := ParseFileIdFromUrl(url, pathnameOf).id;
    ShortestDrivePath(p);
    if |p| >= |Prefix| + |Suffix| {
      assert id == p[|Prefix|..|p| - |Suffix|];
      calc {
        DrivePath(id);
        p[..|Prefix|] + p[|Prefix|..|p| - |Suffix|] + p[|p| - |Suffix|..];
        { assert p[..|Prefix|] + p[|Prefix|..|p| - |Suffix|] == p[..|p| - |Suffix|]; }
        p[..|p| - |Suffix|] + p[|p| - |Suffix|..];
        p;
      }
    }
  }

  /** Round trip: the pathname of the sharable link for any id yields that id back. */
  lemma RoundTrip(url: string, pathnameOf: string -> Option<string>, id: string)
    requires url != "" && pathnameOf(url) == Some(DrivePath(id))
    ensures ParseFileIdFromUrl(url, pathnameOf) == Extracted(id)
  {
  }

  /**
   * The overlapping and touching cases: both pathnames pass the checks and
   * give the empty id, which the caller treats as no id.
   */
  lemma OverlapYieldsEmpty(url: string, pathnameOf: string -> Option<string>)
    requires url != ""
    requires pathnameOf(url) == Some("/file/d/view") || pathnameOf(url) == Some("/file/d//view")
    ensures ParseFileIdFromUrl(url, pathnameOf) == Extracted("")
  {
  }

  /** A sharable link and a foreign URL, through the pathnames the URL parser gives them. */
  lemma SharableLinkExamples(pathnameOf: string -> Option<string>)
    requires pathnameOf("https://drive.google.com/file/d/ABC123/view?usp=sharing") == Some("/file/d/ABC123/view")
    requires pathnameOf("https://example.com/foo/bar") == Some("/foo/bar")
    ensures ParseFileIdFromUrl("https://drive.google.com/file/d/ABC123/view?usp=sharing", pathnameOf) == Extracted("ABC123")
    ensures ParseFileIdFromUrl("https://example.com/foo/bar", pathnameOf) == IllFormed
  {
  }
}
