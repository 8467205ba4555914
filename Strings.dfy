/** The two `String` operations the controller uses on paths and colours. */
module Strings {

  /** `pat` occurs in `s` starting at index `i`. */
  predicate OccursAt(s: string, pat: string, i: nat) {
    i + |pat| <= |s| && s[i..i + |pat|] == pat
  }

  /** `i` is where `pat` first occurs in `s`. */
  predicate FirstOccurrence(s: string, pat: string, i: nat) {
    OccursAt(s, pat, i) && forall j: nat :: j < i ==> !OccursAt(s, pat, j)
  }

  /**
   * `r` is `s` with the first occurrence of `pat` cut out, or `s` itself when `pat`
   * does not occur in `s`.
   */
  ghost predicate FirstRemoved(s: string, pat: string, r: string) {
    && ((forall i: nat :: !OccursAt(s, pat, i)) ==> r == s)
    && (forall i: nat :: FirstOccurrence(s, pat, i) ==> r == s[..i] + s[i + |pat|..])
  }

  /**
   * `s.replace(pat, "")` with a string pattern: only the FIRST occurrence of `pat` is
   * removed; a string that does not contain `pat` comes back unchanged.
   */
  function RemoveFirst(s: string, pat: string): (r: string)
    ensures FirstRemoved(s, pat, r)
    ensures |r| <= |s|
    decreases |s|
  {
    if |s| < |pat| then s
    else if s[..|pat|] == pat then assert OccursAt(s, pat, 0); s[|pat|..]
    else
      var t := RemoveFirst(s[1..], pat);
      FirstRemovedCons(s, pat, t);
      [s[0]] + t
  }

  /** An occurrence in `s[1..]` is an occurrence in `s` one place later, and back. */
  lemma OccursAtTail(s: string, pat: string, i: nat)
    requires |s| >= 1
    ensures OccursAt(s[1..], pat, i) <==> OccursAt(s, pat, i + 1)
  {
    if i + 1 + |pat| <= |s| {
      assert s[1..][i..i + |pat|] == s[i + 1..i + 1 + |pat|];
    }
  }

  /** The recursive step of RemoveFirst: a first character that starts no occurrence is kept. */
  lemma FirstRemovedCons(s: string, pat: string, t: string)
    requires |s| >= |pat| && !OccursAt(s, pat, 0)
    requires FirstRemoved(s[1..], pat, t)
    ensures FirstRemoved(s, pat, [s[0]] + t)
  {
    NoOccurrenceCons(s, pat, t);
    FirstOccurrenceCons(s, pat, t);
  }

  lemma NoOccurrenceCons(s: string, pat: string, t: string)
    requires |s| >= |pat| && !OccursAt(s, pat, 0)
    requires (forall i: nat :: !OccursAt(s[1..], pat, i)) ==> t == s[1..]
    ensures (forall i: nat :: !OccursAt(s, pat, i)) ==> [s[0]] + t == s
  {
    assert |s| >= 1;
    if forall i: nat :: !OccursAt(s, pat, i) {
      forall i: nat
        ensures !OccursAt(s[1..], pat, i)
      {
        OccursAtTail(s, pat, i);
      }
      assert [s[0]] + s[1..] == s;
    }
  }

  lemma FirstOccurrenceCons(s: string, pat: string, t: string)
    requires |s| >= |pat| && !OccursAt(s, pat, 0)
    requires forall i: nat :: FirstOccurrence(s[1..], pat, i) ==> t == s[1..][..i] + s[1..][i + |pat|..]
    ensures forall i: nat :: FirstOccurrence(s, pat, i) ==> [s[0]] + t == s[..i] + s[i + |pat|..]
  {
    assert |s| >= 1;
    forall i: nat | FirstOccurrence(s, pat, i)
      ensures [s[0]] + t == s[..i] + s[i + |pat|..]
    {
      assert i >= 1;
      OccursAtTail(s, pat, i - 1);
      forall j: nat | j < i - 1
        ensures !OccursAt(s[1..], pat, j)
      {
        OccursAtTail(s, pat, j);
      }
      assert FirstOccurrence(s[1..], pat, i - 1);
      assert s[1..][..i - 1] == s[1..i];
      assert s[1..][i - 1 + |pat|..] == s[i + |pat|..];
      assert [s[0]] + s[1..i] == s[..i];
    }
  }
}
