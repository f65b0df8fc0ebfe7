/**
 * The parts of java.lang.String the core relies on: `split` with a one-character separator that is not a
 * regular-expression metacharacter (as `"/"` is), and `isBlank`.
 */
module JavaText {

  /** The index of the first `sep` in s, or |s| when there is none. */
  function IndexOf(s: string, sep: char): (i: nat)
    ensures i <= |s|
    ensures i < |s| ==> s[i] == sep
    ensures forall j :: 0 <= j < i ==> s[j] != sep
  {
    if s == [] then 0
    else if s[0] == sep then 0
    else 1 + IndexOf(s[1..], sep)
  }

  /** Cut s at every `sep`, keeping every piece (Java's split with a negative limit). */
  function SplitAll(s: string, sep: char): (parts: seq<string>)
    ensures |parts| >= 1
    decreases |s|
  {
    var i := IndexOf(s, sep);
    if i == |s| then [s] else [s[..i]] + SplitAll(s[i + 1..], sep)
  }

  /** The inverse of SplitAll: the pieces with `sep` between each two. */
  function Join(parts: seq<string>, sep: char): string
    requires |parts| >= 1
  {
    if |parts| == 1 then parts[0] else parts[0] + [sep] + Join(parts[1..], sep)
  }

  predicate Free(s: string, sep: char) {
    forall i :: 0 <= i < |s| ==> s[i] != sep
  }

  predicate AllFree(parts: seq<string>, sep: char) {
    forall k :: 0 <= k < |parts| ==> Free(parts[k], sep)
  }

  /** Joining the pieces gives the string back, and no piece holds the separator. */
  lemma {:induction false} JoinSplitAll(s: string, sep: char)
    ensures Join(SplitAll(s, sep), sep) == s
    ensures AllFree(SplitAll(s, sep), sep)
    decreases |s|
  {
    var i := IndexOf(s, sep);
    if i < |s| {
      JoinSplitAll(s[i + 1..], sep);
      assert s == s[..i] + [sep] + s[i + 1..];
    }
  }

  /** Splitting joined separator-free pieces gives the pieces back. */
  lemma {:induction false} SplitAllJoin(parts: seq<string>, sep: char)
    requires |parts| >= 1 && AllFree(parts, sep)
    ensures SplitAll(Join(parts, sep), sep) == parts
    decreases |parts|
  {
    var s := Join(parts, sep);
    if |parts| == 1 {
      assert Free(parts[0], sep);
      FreeIndexOf(parts[0], sep);
    } else {
      assert Free(parts[0], sep);
      var rest := Join(parts[1..], sep);
      assert s == parts[0] + [sep] + rest;
      FirstSeparator(parts[0], rest, sep);
      assert s[|parts[0]| + 1..] == rest;
      assert s[..|parts[0]|] == parts[0];
      SplitAllJoin(parts[1..], sep);
      assert [parts[0]] + parts[1..] == parts;
    }
  }

  lemma FreeIndexOf(s: string, sep: char)
    requires Free(s, sep)
    ensures IndexOf(s, sep) == |s|
  {
  }

  lemma FirstSeparator(a: string, b: string, sep: char)
    requires Free(a, sep)
    ensures IndexOf(a + [sep] + b, sep) == |a|
  {
    var s := a + [sep] + b;
    assert s[|a|] == sep;
    assert forall j :: 0 <= j < |a| ==> s[j] == a[j];
  }

  /** Java's split(regex) with limit 0 drops every trailing empty piece. */
  function DropTrailingEmpty(parts: seq<string>): (r: seq<string>)
    ensures r <= parts
    ensures r == [] || r[|r| - 1] != []
    ensures forall k :: |r| <= k < |parts| ==> parts[k] == []
  {
    if parts == [] then []
    else if parts[|parts| - 1] == [] then DropTrailingEmpty(parts[..|parts| - 1])
    else parts
  }

  /**
   * `s.split(sep)`: a string without the separator comes back whole (so "" gives [""]); otherwise the pieces,
   * with the trailing empty ones removed.
   */
  function Split(s: string, sep: char): (parts: seq<string>)
    ensures AllFree(parts, sep)
    ensures sep !in s ==> parts == [s]
    ensures sep in s ==> parts <= SplitAll(s, sep) && (parts == [] || parts[|parts| - 1] != [])
    ensures sep in s ==> forall k :: |parts| <= k < |SplitAll(s, sep)| ==> SplitAll(s, sep)[k] == []
  {
    JoinSplitAll(s, sep);
    if sep !in s then [s] else DropTrailingEmpty(SplitAll(s, sep))
  }

  /** k copies of c. */
  function Repeat(c: char, k: nat): (r: string)
    ensures |r| == k && forall i :: 0 <= i < k ==> r[i] == c
  {
    if k == 0 then [] else [c] + Repeat(c, k - 1)
  }

  /** k empty pieces. */
  function Empties(k: nat): (r: seq<string>)
    ensures |r| == k && forall i :: 0 <= i < k ==> r[i] == []
  {
    if k == 0 then [] else [[]] + Empties(k - 1)
  }

  /** Joining pieces followed by k empty ones adds k separators at the end. */
  lemma {:induction false} JoinEmpties(parts: seq<string>, k: nat, sep: char)
    requires |parts| >= 1
    ensures Join(parts + Empties(k), sep) == Join(parts, sep) + Repeat(sep, k)
    decreases |parts|, k
  {
    if |parts| == 1 {
      if k > 0 {
        assert parts + Empties(k) == [parts[0]] + Empties(k);
        assert ([parts[0]] + Empties(k))[1..] == Empties(k);
        JoinOfEmpties(k, sep);
        assert Join(Empties(k), sep) == Repeat(sep, k - 1);
        assert Repeat(sep, k) == [sep] + Repeat(sep, k - 1);
      } else {
        assert parts + Empties(0) == parts;
      }
    } else {
      JoinEmpties(parts[1..], k, sep);
      assert (parts + Empties(k))[1..] == parts[1..] + Empties(k);
    }
  }

  /** k >= 1 empty pieces join to k - 1 separators. */
  lemma {:induction false} JoinOfEmpties(k: nat, sep: char)
    requires k >= 1
    ensures Join(Empties(k), sep) == Repeat(sep, k - 1)
  {
    if k > 1 {
      JoinOfEmpties(k - 1, sep);
      assert Empties(k)[1..] == Empties(k - 1);
    }
  }

  /** Java's Character.isWhitespace. */
  predicate IsWhitespace(c: char) {
    || c == ' ' || c == '\t' || c == '\n' || c == '\U{000B}' || c == '\U{000C}' || c == '\r'
    || ('\U{001C}' <= c <= '\U{001F}')
    || c == '\U{1680}' || ('\U{2000}' <= c <= '\U{2006}') || ('\U{2008}' <= c <= '\U{200A}')
    || c == '\U{2028}' || c == '\U{2029}' || c == '\U{205F}' || c == '\U{3000}'
  }

  /** Java's String.isBlank: empty or only whitespace. */
  predicate IsBlank(s: string) {
    forall i :: 0 <= i < |s| ==> IsWhitespace(s[i])
  }
}
