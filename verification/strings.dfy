/**
 * The string operations the system relies on: Python's `str.join`,
 * `str.split` and `str.strip`, and the case-insensitive substring test
 * behind a JavaScript `/word/i` regular expression.
 */
module Strings {

  /** `sep.join(parts)`: the parts with `sep` between neighbours. */
  function Join(parts: seq<string>, sep: string): (r: string)
    ensures |parts| == 1 ==> r == parts[0]
    ensures |parts| == 0 ==> r == ""
    decreases |parts|
  {
    if |parts| == 0 then ""
    else if |parts| == 1 then parts[0]
    else parts[0] + sep + Join(parts[1..], sep)
  }

  /** `s.split(sep)` for a one-character separator: never an empty list, no piece holds the
      separator, and joining the pieces with it gives `s` back. */
  function Split(s: string, sep: char): (r: seq<string>)
    ensures |r| >= 1
    ensures forall k :: 0 <= k < |r| ==> sep !in r[k]
    ensures Join(r, [sep]) == s
    decreases |s|
  {
    if |s| == 0 then [""]
    else if s[0] == sep then
      var rest := Split(s[1..], sep);
      JoinCons("", rest, [sep]);
      assert s == [sep] + s[1..];
      [""] + rest
    else
      var rest := Split(s[1..], sep);
      JoinCons(rest[0], rest[1..], [sep]);
      JoinCons([s[0]] + rest[0], rest[1..], [sep]);
      assert [rest[0]] + rest[1..] == rest;
      assert s == [s[0]] + s[1..];
      [[s[0]] + rest[0]] + rest[1..]
  }

  /** Joining a non-empty tail after one more part puts a separator between them. */
  lemma JoinCons(x: string, tail: seq<string>, sep: string)
    ensures |tail| == 0 ==> Join([x] + tail, sep) == x
    ensures |tail| > 0 ==> Join([x] + tail, sep) == x + sep + Join(tail, sep)
  {
    assert ([x] + tail)[1..] == tail;
  }

  /** Splitting a text that starts with a separator-free chunk puts that chunk in front of the first piece. */
  lemma {:induction false} SplitChunk(x: string, tail: string, sep: char)
    requires sep !in x
    ensures Split(x + tail, sep) == [x + Split(tail, sep)[0]] + Split(tail, sep)[1..]
    decreases |x|
  {
    if |x| == 0 {
      assert x + tail == tail;
      var r := Split(tail, sep);
      assert x + r[0] == r[0];
      assert [r[0]] + r[1..] == r;
    } else {
      assert (x + tail)[1..] == x[1..] + tail;
      assert (x + tail)[0] == x[0];
      SplitChunk(x[1..], tail, sep);
      assert [x[0]] + (x[1..] + Split(tail, sep)[0]) == x + Split(tail, sep)[0];
    }
  }

  /** Joining with a one-character separator and splitting again gives the parts back, provided
      there is at least one part and no part contains the separator. */
  lemma {:induction false} SplitJoin(parts: seq<string>, sep: char)
    requires |parts| >= 1
    requires forall k :: 0 <= k < |parts| ==> sep !in parts[k]
    ensures Split(Join(parts, [sep]), sep) == parts
    decreases |parts|
  {
    if |parts| == 1 {
      SplitChunk(parts[0], "", sep);
      assert parts[0] + "" == parts[0];
    } else {
      var rest := Join(parts[1..], [sep]);
      SplitJoin(parts[1..], sep);
      assert Join(parts, [sep]) == parts[0] + ([sep] + rest);
      assert ([sep] + rest)[1..] == rest;
      SplitChunk(parts[0], [sep] + rest, sep);
      assert Split([sep] + rest, sep) == [""] + parts[1..];
      assert parts[0] + "" == parts[0];
      assert [parts[0]] + parts[1..] == parts;
    }
  }

  /** The characters Python's `str.isspace` accepts among the ASCII range. */
  predicate IsSpace(c: char)
  {
    c == ' ' || c == '\t' || c == '\n' || c == '\r' || c == '\U{B}' || c == '\U{C}'
    || ('\U{1C}' <= c <= '\U{1F}')
  }

  /** The first position at or after `i` that holds no whitespace, or `|s|`. */
  function SkipSpaces(s: string, i: nat): (r: nat)
    requires i <= |s|
    ensures i <= r <= |s|
    ensures forall k :: i <= k < r ==> IsSpace(s[k])
    ensures r < |s| ==> !IsSpace(s[r])
    decreases |s| - i
  {
    if i < |s| && IsSpace(s[i]) then SkipSpaces(s, i + 1) else i
  }

  /** The end of `s[lo..j]` once trailing whitespace is cut off. */
  function SkipSpacesBack(s: string, lo: nat, j: nat): (r: nat)
    requires lo <= j <= |s|
    ensures lo <= r <= j
    ensures forall k :: r <= k < j ==> IsSpace(s[k])
    ensures r > lo ==> !IsSpace(s[r - 1])
    decreases j
  {
    if j > lo && IsSpace(s[j - 1]) then SkipSpacesBack(s, lo, j - 1) else j
  }

  /** `s[i..j]` is `s` with only whitespace cut off at either end. */
  predicate StrippedSlice(s: string, i: int, j: int)
  {
    && 0 <= i <= j <= |s|
    && (forall k :: 0 <= k < i ==> IsSpace(s[k]))
    && (forall k :: j <= k < |s| ==> IsSpace(s[k]))
  }

  /** `s.strip()`: the longest slice of `s` that neither starts nor ends with whitespace,
      everything cut off being whitespace. */
  function Strip(s: string): (r: string)
    ensures exists i, j :: StrippedSlice(s, i, j) && r == s[i..j]
    ensures |r| > 0 ==> !IsSpace(r[0]) && !IsSpace(r[|r| - 1])
  {
    var i := SkipSpaces(s, 0);
    var j := SkipSpacesBack(s, i, |s|);
    assert StrippedSlice(s, i, j);
    s[i..j]
  }

  /** ASCII lower-casing, the case folding a JavaScript `/…/i` pattern without the `u` flag
      applies to ASCII letters. */
  function Lower(c: char): char
  {
    if 'A' <= c <= 'Z' then (c as int - 'A' as int + 'a' as int) as char else c
  }

  function LowerAll(s: string): (r: string)
    ensures |r| == |s|
    ensures forall k :: 0 <= k < |s| ==> r[k] == Lower(s[k])
  {
    seq(|s|, k requires 0 <= k < |s| => Lower(s[k]))
  }

  /** `/needle/i.test(hay)` for a lower-case ASCII `needle`. */
  predicate ContainsIgnoreCase(hay: string, needle: string)
  {
    exists i | 0 <= i <= |hay| - |needle| :: MatchesAt(hay, needle, i)
  }

  predicate MatchesAt(hay: string, needle: string, i: int)
    requires 0 <= i <= |hay| - |needle|
  {
    LowerAll(hay)[i..i + |needle|] == needle
  }
}
