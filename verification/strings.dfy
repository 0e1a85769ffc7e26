/** The handful of Python string operations the lexer and the driver rely on:
    character classes of the regular expressions, `str.find`, slicing,
    `str.split('\n')` and `str.strip()`. */
module Strings {

  /** `\s` (and `str.isspace`) over ASCII: space, tab, the line and page
      breaks, and the four information separators 0x1C-0x1F. */
  predicate IsSpace(c: char) {
    c == ' ' || c == '\t' || c == '\n' || c == '\r' || c == '\U{0B}' || c == '\U{0C}'
    || ('\U{1C}' <= c <= '\U{1F}')
  }

  /** `\d` over ASCII. */
  predicate IsDigit(c: char) {
    '0' <= c <= '9'
  }

  /** `[a-zA-Z_]`, the first character of an identifier. */
  predicate IsIdentStart(c: char) {
    ('a' <= c <= 'z') || ('A' <= c <= 'Z') || c == '_'
  }

  /** `\w` over ASCII: `[a-zA-Z0-9_]`. */
  predicate IsWordChar(c: char) {
    IsIdentStart(c) || IsDigit(c)
  }

  predicate StartsWith(s: string, prefix: string) {
    |prefix| <= |s| && s[..|prefix|] == prefix
  }

  predicate EndsWith(s: string, suffix: string) {
    |suffix| <= |s| && s[|s| - |suffix|..] == suffix
  }

  /** `pat` occurs in `s` starting at index `k`. */
  predicate OccursAt(s: string, pat: string, k: int) {
    0 <= k && k + |pat| <= |s| && s[k..k + |pat|] == pat
  }

  /** Python's `s.find(pat, from)`: the least index `k >= from` at which `pat`
      occurs, or -1 when there is none. */
  function Find(s: string, pat: string, from: nat): (k: int)
    ensures k == -1 || (from <= k && OccursAt(s, pat, k))
    ensures k == -1 ==> forall j :: from <= j ==> !OccursAt(s, pat, j)
    ensures k != -1 ==> forall j :: from <= j < k ==> !OccursAt(s, pat, j)
    decreases |s| - from
  {
    if from + |pat| > |s| then -1
    else if s[from..from + |pat|] == pat then from
    else Find(s, pat, from + 1)
  }

  /** Python's slice `s[lo:hi]` for non-negative bounds: bounds past the end
      are clamped and an empty range gives the empty string. */
  function Slice(s: string, lo: nat, hi: nat): (r: string)
    ensures |r| <= |s|
    ensures lo <= hi <= |s| ==> r == s[lo..hi]
    ensures hi <= lo ==> r == ""
  {
    var a := if lo <= |s| then lo else |s|;
    var b := if hi <= |s| then hi else |s|;
    if a <= b then s[a..b] else ""
  }

  /** Python's `s.split(sep)` for a one-character separator. */
  function Split(s: string, sep: char): (parts: seq<string>)
    ensures |parts| >= 1
    ensures forall k :: 0 <= k < |parts| ==> sep !in parts[k]
    decreases |s|
  {
    if s == [] then [""]
    else if s[0] == sep then [""] + Split(s[1..], sep)
    else
      var rest := Split(s[1..], sep);
      [[s[0]] + rest[0]] + rest[1..]
  }

  /** Python's `sep.join(parts)`. */
  function Join(parts: seq<string>, sep: char): string
    requires |parts| >= 1
    decreases |parts|
  {
    if |parts| == 1 then parts[0] else parts[0] + [sep] + Join(parts[1..], sep)
  }

  /** Splitting and joining again gives back the text: no character is lost. */
  lemma {:induction false} JoinSplit(s: string, sep: char)
    ensures Join(Split(s, sep), sep) == s
    decreases |s|
  {
    if s == [] {
    } else if s[0] == sep {
      JoinSplit(s[1..], sep);
      var rest := Split(s[1..], sep);
      assert Split(s, sep) == [""] + rest;
      assert ([""] + rest)[1..] == rest;
    } else {
      JoinSplit(s[1..], sep);
      var rest := Split(s[1..], sep);
      var parts := [[s[0]] + rest[0]] + rest[1..];
      assert Split(s, sep) == parts;
      if |rest| == 1 {
        assert Join(parts, sep) == [s[0]] + rest[0];
      } else {
        assert parts[1..] == rest[1..];
        assert Join(rest, sep) == rest[0] + [sep] + Join(rest[1..], sep);
      }
    }
  }

  /** Joining separator-free pieces and splitting again gives back the pieces. */
  lemma {:induction false} SplitJoin(parts: seq<string>, sep: char)
    requires |parts| >= 1
    requires forall k :: 0 <= k < |parts| ==> sep !in parts[k]
    ensures Split(Join(parts, sep), sep) == parts
    decreases |parts|, |parts[0]|
  {
    var head := parts[0];
    if head == [] {
      if |parts| == 1 {
      } else {
        SplitJoin(parts[1..], sep);
        var s := Join(parts, sep);
        assert s == [sep] + Join(parts[1..], sep);
        assert s[1..] == Join(parts[1..], sep);
        assert [""] + parts[1..] == parts;
      }
    } else {
      var shorter := [head[1..]] + parts[1..];
      assert shorter[1..] == parts[1..];
      forall k | 0 <= k < |shorter| ensures sep !in shorter[k] {
        if k == 0 {
          assert forall c :: c in head[1..] ==> c in head;
        }
      }
      SplitJoin(shorter, sep);
      var s := Join(parts, sep);
      JoinCons(parts, sep);
      JoinCons(shorter, sep);
      assert s == [head[0]] + Join(shorter, sep);
      assert s[0] == head[0] && head[0] != sep;
      assert s[1..] == Join(shorter, sep);
      var rest := Split(s[1..], sep);
      assert rest == shorter;
      assert [head[0]] + head[1..] == head;
      assert [[head[0]] + head[1..]] + parts[1..] == parts;
    }
  }

  /** Joining is concatenation of the first piece with the rest. */
  lemma JoinCons(parts: seq<string>, sep: char)
    requires |parts| >= 1
    ensures |parts| == 1 ==> Join(parts, sep) == parts[0]
    ensures |parts| > 1 ==> Join(parts, sep) == parts[0] + [sep] + Join(parts[1..], sep)
  {
  }

  /** The first index at or after `i` that is not whitespace, or `|s|`. */
  function SkipSpaces(s: string, i: nat): (k: nat)
    requires i <= |s|
    ensures i <= k <= |s|
    ensures forall p :: i <= p < k ==> IsSpace(s[p])
    ensures k < |s| ==> !IsSpace(s[k])
    decreases |s| - i
  {
    if i < |s| && IsSpace(s[i]) then SkipSpaces(s, i + 1) else i
  }

  /** The least index `k <= j` such that `s[k..j]` is all whitespace. */
  function BackSpaces(s: string, j: nat): (k: nat)
    requires j <= |s|
    ensures k <= j
    ensures forall p :: k <= p < j ==> IsSpace(s[p])
    ensures k > 0 ==> !IsSpace(s[k - 1])
  {
    if j > 0 && IsSpace(s[j - 1]) then BackSpaces(s, j - 1) else j
  }

  /** Python's `s.strip()`: `s` without its leading and trailing whitespace. */
  function Strip(s: string): (r: string)
    ensures |r| <= |s|
  {
    var a := SkipSpaces(s, 0);
    var b := BackSpaces(s, |s|);
    if a < b then s[a..b] else ""
  }

  /** `Strip` keeps the middle of `s` and drops only whitespace around it;
      it is empty exactly for an all-whitespace string. */
  lemma StripSpec(s: string)
    ensures Strip(s) == [] <==> forall p :: 0 <= p < |s| ==> IsSpace(s[p])
    ensures Strip(s) != [] ==> !IsSpace(Strip(s)[0]) && !IsSpace(Strip(s)[|Strip(s)| - 1])
    ensures exists a, b :: 0 <= a <= b <= |s| && Strip(s) == s[a..b]
              && (forall p :: 0 <= p < a ==> IsSpace(s[p]))
              && (forall p :: b <= p < |s| ==> IsSpace(s[p]))
  {
    var a := SkipSpaces(s, 0);
    var b := BackSpaces(s, |s|);
    if a >= b {
      assert s[|s|..|s|] == [];
    }
  }

  /** A string that neither starts nor ends with whitespace is its own strip. */
  lemma StripKeeps(s: string)
    requires s != [] && !IsSpace(s[0]) && !IsSpace(s[|s| - 1])
    ensures Strip(s) == s
  {
    assert SkipSpaces(s, 0) == 0;
    assert BackSpaces(s, |s|) == |s|;
    assert s[0..|s|] == s;
  }

  /** Stripping a stripped string changes nothing. */
  lemma StripIdempotent(s: string)
    ensures Strip(Strip(s)) == Strip(s)
  {
    StripSpec(s);
    if Strip(s) != [] {
      StripKeeps(Strip(s));
    }
  }
}
