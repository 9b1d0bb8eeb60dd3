/**
 * The string operations the importer borrows from Python: substring search
 * (`pat in s`), `str.split("//")`, and `str.replace(pat, "")`.
 */
module Text {
  import opened Exceptions

  /** The separator between category names in the `categories` column. */
  const Delimiter: string := "//"

  predicate StartsWith(s: string, pat: string) {
    |pat| <= |s| && s[..|pat|] == pat
  }

  /** Python's `s.find(pat)`: the first position where `pat` occurs in `s`, if any. */
  function Find(s: string, pat: string): (r: Option<nat>)
    ensures r.Some? ==> r.value + |pat| <= |s| && StartsWith(s[r.value..], pat)
    ensures r.Some? ==> forall j {:trigger StartsWith(s[j..], pat)} :: 0 <= j < r.value ==> !StartsWith(s[j..], pat)
    ensures r.None? ==> forall j {:trigger StartsWith(s[j..], pat)} :: 0 <= j <= |s| ==> !StartsWith(s[j..], pat)
    decreases |s|
  {
    if StartsWith(s, pat) then Some(0)
    else if s == "" then None
    else
      match Find(s[1..], pat)
      case None =>
        assert forall j :: 1 <= j <= |s| ==> s[j..] == s[1..][j - 1..];
        None
      case Some(i) =>
        assert forall j :: 1 <= j <= i + 1 ==> s[j..] == s[1..][j - 1..];
        Some(i + 1)
  }

  /** Python's `pat in s`. */
  predicate Contains(s: string, pat: string) {
    Find(s, pat).Some?
  }

  /** When `pat` is not in `s`, no position of `s` starts with it. */
  lemma NotContainsAt(s: string, pat: string, j: nat)
    requires j <= |s| && !Contains(s, pat)
    ensures !StartsWith(s[j..], pat)
  {
  }

  /** The first occurrence of `pat` is the one `Find` reports. */
  lemma FindFirst(s: string, pat: string, i: nat)
    requires i <= |s| && StartsWith(s[i..], pat)
    requires forall j {:trigger StartsWith(s[j..], pat)} :: 0 <= j < i ==> !StartsWith(s[j..], pat)
    ensures Find(s, pat) == Some(i)
  {
  }

  /** Python's `s.split("//")`: the pieces between non-overlapping separators, scanning left to right. */
  function Split(s: string): (pieces: seq<string>)
    ensures |pieces| >= 1
    decreases |s|
  {
    match Find(s, Delimiter)
    case None => [s]
    case Some(i) => [s[..i]] + Split(s[i + |Delimiter|..])
  }

  /** Python's `"//".join(pieces)`. */
  function Join(pieces: seq<string>): string {
    if |pieces| == 0 then ""
    else if |pieces| == 1 then pieces[0]
    else pieces[0] + Delimiter + Join(pieces[1..])
  }

  /** Splitting the empty string gives one empty name, not an empty list. */
  lemma SplitEmpty()
    ensures Split("") == [""]
  {
    assert Find("", Delimiter) == None;
  }

  /** Joining the pieces of a split with the separator gives back the string. */
  lemma {:induction false} SplitThenJoin(s: string)
    ensures Join(Split(s)) == s
    decreases |s|
  {
    match Find(s, Delimiter)
    case None =>
    case Some(i) =>
      var rest := s[i + |Delimiter|..];
      SplitThenJoin(rest);
      Rejoin(s, i);
  }

  /** The string is its part before a separator, the separator, and its part after. */
  lemma Rejoin(s: string, i: nat)
    requires i + |Delimiter| <= |s| && StartsWith(s[i..], Delimiter)
    ensures s == s[..i] + Delimiter + s[i + |Delimiter|..]
  {
    assert s[i..i + |Delimiter|] == Delimiter;
  }

  /** No piece of a split contains the separator. */
  lemma {:induction false} SplitPiecesHaveNoDelimiter(s: string)
    ensures forall p :: p in Split(s) ==> !Contains(p, Delimiter)
    decreases |s|
  {
    match Find(s, Delimiter)
    case None =>
    case Some(i) =>
      var rest := s[i + |Delimiter|..];
      HeadHasNoDelimiter(s, i);
      SplitPiecesHaveNoDelimiter(rest);
      assert Split(s) == [s[..i]] + Split(rest);
  }

  /** The text before the first separator contains none. */
  lemma HeadHasNoDelimiter(s: string, i: nat)
    requires Find(s, Delimiter) == Some(i)
    ensures !Contains(s[..i], Delimiter)
  {
    var head := s[..i];
    forall j | 0 <= j <= |head|
      ensures !StartsWith(head[j..], Delimiter)
    {
      if j + |Delimiter| <= |head| {
        assert !StartsWith(s[j..], Delimiter);
        assert head[j..][..|Delimiter|] == s[j..j + |Delimiter|] == s[j..][..|Delimiter|];
      }
    }
  }

  /** A piece that, followed by the separator, would make a separator start inside it. */
  predicate EndsWithSlash(p: string) {
    p != "" && p[|p| - 1] == '/'
  }

  /**
   * The converse round trip: a non-empty list of names free of the separator,
   * none but the last ending in '/', is recovered by splitting its join.
   */
  lemma {:induction false} JoinThenSplit(pieces: seq<string>)
    requires |pieces| >= 1
    requires forall p :: p in pieces ==> !Contains(p, Delimiter)
    requires forall k :: 0 <= k < |pieces| - 1 ==> !EndsWithSlash(pieces[k])
    ensures Split(Join(pieces)) == pieces
    decreases |pieces|
  {
    var p := pieces[0];
    if |pieces| == 1 {
      assert !Contains(p, Delimiter);
    } else {
      var rest := Join(pieces[1..]);
      FirstSeparator(p, rest);
      JoinThenSplit(pieces[1..]);
      assert pieces == [p] + pieces[1..];
    }
  }

  /**
   * In `p + "//" + rest`, with `p` free of the separator and not ending in
   * '/', the first separator is the one after `p`.
   */
  lemma FirstSeparator(p: string, rest: string)
    requires !Contains(p, Delimiter) && !EndsWithSlash(p)
    ensures var s := p + Delimiter + rest;
      Find(s, Delimiter) == Some(|p|) && s[..|p|] == p && s[|p| + |Delimiter|..] == rest
  {
    var s := p + Delimiter + rest;
    assert s[|p|..][..|Delimiter|] == Delimiter;
    forall j | 0 <= j < |p|
      ensures !StartsWith(s[j..], Delimiter)
    {
      if j + 1 < |p| {
        assert p[j..][..|Delimiter|] == s[j..][..|Delimiter|];
        NotContainsAt(p, Delimiter, j);
      } else {
        assert s[j..][0] == p[|p| - 1];
      }
    }
    FindFirst(s, Delimiter, |p|);
    assert s[..|p|] == p;
    assert s[|p| + |Delimiter|..] == rest;
  }

  /**
   * Python's `s.replace(pat, "")`: every non-overlapping occurrence of `pat`,
   * found scanning left to right, is removed.
   */
  function RemoveAll(s: string, pat: string): (r: string)
    requires pat != ""
    ensures |r| <= |s|
    decreases |s|
  {
    if StartsWith(s, pat) then RemoveAll(s[|pat|..], pat)
    else if s == "" then ""
    else [s[0]] + RemoveAll(s[1..], pat)
  }

  /** Removing a pattern that does not occur changes nothing. */
  lemma {:induction false} RemoveAbsent(s: string, pat: string)
    requires pat != ""
    requires !Contains(s, pat)
    ensures RemoveAll(s, pat) == s
    decreases |s|
  {
    if s != "" {
      assert Find(s, pat) == None;
      assert !StartsWith(s, pat);
      assert Find(s[1..], pat) == None;
      RemoveAbsent(s[1..], pat);
    }
  }

  /**
   * `str.replace(pat, "")` scans left to right as `find` does: the text up to
   * the first occurrence is kept, the occurrence is dropped, and the rest is
   * treated the same way.  With `RemoveAbsent` this determines the result.
   */
  lemma RemoveAtFirst(s: string, pat: string, i: nat)
    requires pat != ""
    requires Find(s, pat) == Some(i)
    ensures i + |pat| <= |s|
    ensures RemoveAll(s, pat) == s[..i] + RemoveAll(s[i + |pat|..], pat)
  {
    RemoveFrom(s, pat, 0, i);
    assert s[0..] == s && s[0..i] == s[..i];
  }

  /** From position `k`, the text before the next occurrence (at `i`) is kept and the occurrence dropped. */
  lemma {:induction false} RemoveFrom(s: string, pat: string, k: nat, i: nat)
    requires pat != "" && k <= i < |s|
    requires StartsWith(s[i..], pat)
    requires forall j {:trigger StartsWith(s[j..], pat)} :: k <= j < i ==> !StartsWith(s[j..], pat)
    ensures i + |pat| <= |s|
    ensures RemoveAll(s[k..], pat) == s[k..i] + RemoveAll(s[i + |pat|..], pat)
    decreases i - k
  {
    if k == i {
      RemoveDrops(s, pat, i);
    } else {
      RemoveKeepsHead(s, pat, k);
      RemoveFrom(s, pat, k + 1, i);
      ConsAppend(s, k, i, RemoveAll(s[i + |pat|..], pat));
    }
  }

  /** An occurrence at `i` is dropped. */
  lemma RemoveDrops(s: string, pat: string, i: nat)
    requires pat != "" && i <= |s| && StartsWith(s[i..], pat)
    ensures i + |pat| <= |s|
    ensures RemoveAll(s[i..], pat) == s[i..i] + RemoveAll(s[i + |pat|..], pat)
  {
    assert s[i..][|pat|..] == s[i + |pat|..];
    assert s[i..i] == "";
  }

  /** A character where no occurrence starts is kept. */
  lemma RemoveKeepsHead(s: string, pat: string, k: nat)
    requires pat != "" && k < |s| && !StartsWith(s[k..], pat)
    ensures RemoveAll(s[k..], pat) == [s[k]] + RemoveAll(s[k + 1..], pat)
  {
    assert s[k..][1..] == s[k + 1..];
  }

  lemma ConsAppend(s: string, k: nat, i: nat, tail: string)
    requires k < i <= |s|
    ensures [s[k]] + (s[k + 1..i] + tail) == s[k..i] + tail
  {
    assert [s[k]] + s[k + 1..i] == s[k..i];
  }

  /** A column named `pat + x`, with no further occurrence in `x`, is keyed `x`. */
  lemma RemovePrefix(pat: string, x: string)
    requires pat != ""
    requires !Contains(x, pat)
    ensures RemoveAll(pat + x, pat) == x
  {
    assert (pat + x)[..|pat|] == pat;
    assert (pat + x)[|pat|..] == x;
    RemoveAbsent(x, pat);
  }
}
