/**
 * `getBookId` and the storage keys derived from it. The `window.bookConfig` accessor and
 * `window.location.pathname` are inputs.
 */
module BookIds {
  import opened Wrappers
  import opened Strings

  /** What `getBookId` reads: the id of `window.bookConfig.getCurrentBook()` if any, and the path. */
  datatype BookLocation = BookLocation(currentBookId: Option<string>, pathname: string)

  const UnknownBook := "unknown-book"
  const SettingsKey := "reading-settings"
  const ProgressPrefix := "reading-progress-"

  /** `path.split("/").pop()`: the text after the last `/`, or the whole path when it has none. */
  function LastSegment(path: string): (seg: string)
    ensures '/' !in seg
    ensures |seg| <= |path| && seg == path[|path| - |seg|..]
    ensures |seg| < |path| ==> path[|path| - |seg| - 1] == '/'
  {
    if path == [] then []
    else if path[|path| - 1] == '/' then []
    else LastSegment(path[..|path| - 1]) + [path[|path| - 1]]
  }

  /** The file name with its first `.html` removed (`fileName.replace(".html", "")`). */
  function FileStem(pathname: string): (stem: string)
    ensures '/' !in stem
  {
    var name := LastSegment(pathname);
    var stem := RemoveFirst(name, ".html");
    FirstRemovedKeepsOut(name, ".html", stem, '/');
    stem
  }

  /** A character absent from `s` is absent from `s` with an occurrence of a pattern removed. */
  lemma FirstRemovedKeepsOut(s: string, pat: string, r: string, c: char)
    requires FirstRemoved(s, pat, r) && c !in s
    ensures c !in r
  {
    if i: nat :| FirstOccurrence(s, pat, i) {
      assert r == s[..i] + s[i + |pat|..];
      assert forall k :: 0 <= k < |r| ==> r[k] in s by {
        forall k | 0 <= k < |r| ensures r[k] in s {
          if k < i { assert r[k] == s[k]; } else { assert r[k] == s[k + |pat|]; }
        }
      }
    } else {
      NoFirstMeansNone(s, pat);
    }
  }

  /** Without a first occurrence there is no occurrence at all. */
  lemma NoFirstMeansNone(s: string, pat: string)
    requires forall i: nat :: !FirstOccurrence(s, pat, i)
    ensures forall i: nat :: !OccursAt(s, pat, i)
  {
    forall i: nat
      ensures !OccursAt(s, pat, i)
    {
      LeastOccurrence(s, pat, i);
    }
  }

  /** Below any occurrence lies a first one. */
  lemma {:induction false} LeastOccurrence(s: string, pat: string, i: nat)
    ensures OccursAt(s, pat, i) ==> exists j: nat :: j <= i && FirstOccurrence(s, pat, j)
    decreases i
  {
    if OccursAt(s, pat, i) && !FirstOccurrence(s, pat, i) {
      var j: nat :| j < i && OccursAt(s, pat, j);
      LeastOccurrence(s, pat, j);
    }
  }

  /**
   * `getBookId()`: the configured current book's id when it is a non-empty string; otherwise
   * the file stem of the path; `"unknown-book"` when that is empty. Never the empty string.
   */
  function GetBookId(loc: BookLocation): (id: string)
    ensures id != ""
    ensures loc.currentBookId.Some? && loc.currentBookId.value != "" ==> id == loc.currentBookId.value
    ensures !(loc.currentBookId.Some? && loc.currentBookId.value != "") ==>
              '/' !in id && id == (if FileStem(loc.pathname) == "" then UnknownBook else FileStem(loc.pathname))
  {
    if loc.currentBookId.Some? && loc.currentBookId.value != "" then loc.currentBookId.value
    else
      var stem := FileStem(loc.pathname);
      SentinelIsOneSegment();
      if stem == "" then UnknownBook else stem
  }

  /** The fallback id is a single path segment, like every file stem. */
  lemma SentinelIsOneSegment()
    ensures '/' !in UnknownBook
  {
  }

  /** The key `reading-progress-<bookId>` of a book's progress record. */
  function ProgressKey(bookId: string): (key: string)
    ensures key != SettingsKey
    ensures |key| == |ProgressPrefix| + |bookId|
    ensures key[..|ProgressPrefix|] == ProgressPrefix && key[|ProgressPrefix|..] == bookId
  {
    var key := ProgressPrefix + bookId;
    assert key[8] == 'p' && SettingsKey[8] == 's';
    key
  }

  /** Different books never share a progress key. */
  lemma ProgressKeyInjective(a: string, b: string)
    requires ProgressKey(a) == ProgressKey(b)
    ensures a == b
  {
    assert a == ProgressKey(a)[|ProgressPrefix|..];
  }
}
