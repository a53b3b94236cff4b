/**
 * Python string operations used by the core: `str.strip()`, ASCII `str.lower()`,
 * `str.find`, `str.rfind`, `str.startswith`, `str.split(sep)` and `str(int)`.
 */
module Text {

  /** The characters for which Python's `str.isspace()` holds (what `strip()` removes). */
  predicate IsSpace(c: char) {
    var n := c as int;
    || 0x09 <= n <= 0x0D || 0x1C <= n <= 0x20 || n == 0x85 || n == 0xA0 || n == 0x1680
    || 0x2000 <= n <= 0x200A || n == 0x2028 || n == 0x2029 || n == 0x202F || n == 0x205F || n == 0x3000
  }

  predicate AllSpace(s: string) {
    forall i :: 0 <= i < |s| ==> IsSpace(s[i])
  }

  /** A string that `strip()` leaves alone: empty, or with a non-space at both ends. */
  predicate IsStripped(s: string) {
    s == [] || (!IsSpace(s[0]) && !IsSpace(s[|s| - 1]))
  }

  /** The index of the first non-space character at or after `i`, or `|s|` when there is none. */
  function SkipSpaces(s: string, i: nat): (r: nat)
    requires i <= |s|
    ensures i <= r <= |s|
    ensures forall k :: i <= k < r ==> IsSpace(s[k])
    ensures r == |s| || !IsSpace(s[r])
    decreases |s| - i
  {
    if i < |s| && IsSpace(s[i]) then SkipSpaces(s, i + 1) else i
  }

  /** Going back from `j` towards `lo`, the index just past the last non-space character, or `lo`. */
  function BackSpaces(s: string, lo: nat, j: nat): (r: nat)
    requires lo <= j <= |s|
    ensures lo <= r <= j
    ensures forall k :: r <= k < j ==> IsSpace(s[k])
    ensures r == lo || !IsSpace(s[r - 1])
  {
    if j > lo && IsSpace(s[j - 1]) then BackSpaces(s, lo, j - 1) else j
  }

  /** How many characters `strip()` removes from the front of `s`. */
  function StripOffset(s: string): (i: nat)
    ensures i <= |s|
  {
    SkipSpaces(s, 0)
  }

  /** Python's `s.strip()`: the slice of `s` left after removing whitespace at both ends. */
  function Strip(s: string): (r: string)
    ensures IsStripped(r)
    ensures StripOffset(s) + |r| <= |s| && r == s[StripOffset(s)..StripOffset(s) + |r|]
    ensures forall k :: 0 <= k < StripOffset(s) ==> IsSpace(s[k])
    ensures forall k :: StripOffset(s) + |r| <= k < |s| ==> IsSpace(s[k])
  {
    var i := SkipSpaces(s, 0);
    var j := BackSpaces(s, i, |s|);
    assert j > i ==> s[i..j][0] == s[i] && s[i..j][j - i - 1] == s[j - 1];
    s[i..j]
  }

  /** `strip()` changes nothing on a string with non-space ends. */
  lemma StripOfStripped(s: string)
    requires IsStripped(s)
    ensures Strip(s) == s
  {
    if s != [] {
      assert SkipSpaces(s, 0) == 0;
      assert BackSpaces(s, 0, |s|) == |s|;
      assert s[0..|s|] == s;
    }
  }

  /** `strip()` is idempotent. */
  lemma StripIdempotent(s: string)
    ensures Strip(Strip(s)) == Strip(s)
  {
    StripOfStripped(Strip(s));
  }

  /** A string strips to "" exactly when every character of it is whitespace. */
  lemma StripEmptyIffBlank(s: string)
    ensures Strip(s) == "" <==> AllSpace(s)
  {
    var r := Strip(s);
    if r != "" {
      assert r[0] == s[StripOffset(s)];
    }
  }

  function LowerChar(c: char): char {
    if 'A' <= c <= 'Z' then (c as int + 32) as char else c
  }

  /** Python's `s.lower()` restricted to ASCII letters. */
  function Lower(s: string): string {
    seq(|s|, i requires 0 <= i < |s| => LowerChar(s[i]))
  }

  predicate StartsWith(s: string, prefix: string) {
    |prefix| <= |s| && s[..|prefix|] == prefix
  }

  /** Python's `s.find(c)`: the first index of `c`, or -1. */
  function Find(s: string, c: char): (k: int)
    ensures -1 <= k < |s|
    ensures k == -1 <==> c !in s
    ensures k >= 0 ==> s[k] == c && c !in s[..k]
  {
    if s == [] then -1
    else if s[0] == c then 0
    else
      var k := Find(s[1..], c);
      FindStep(s, c, k);
      if k == -1 then -1 else k + 1
  }

  /** A first occurrence after a first character other than `c` is, one place on, the first occurrence in `s`. */
  lemma FindStep(s: string, c: char, k: int)
    requires s != [] && s[0] != c
    requires -1 <= k < |s| - 1 && (k == -1 <==> c !in s[1..])
    requires k >= 0 ==> s[1..][k] == c && c !in s[1..][..k]
    ensures k == -1 <==> c !in s
    ensures k >= 0 ==> s[k + 1] == c && c !in s[..k + 1]
  {
    var tail := s[1..];
    if c in s {
      var j :| 0 <= j < |s| && s[j] == c;
      assert tail[j - 1] == c;
    }
    if k >= 0 {
      assert s[..k + 1] == [s[0]] + tail[..k];
    }
  }

  /** The last index of `c` before position `j`, or -1. */
  function RFindBefore(s: string, c: char, j: nat): (k: int)
    requires j <= |s|
    ensures -1 <= k < j
    ensures k >= 0 ==> s[k] == c
    ensures forall x :: k < x < j ==> s[x] != c
    decreases j
  {
    if j == 0 then -1
    else if s[j - 1] == c then j - 1
    else RFindBefore(s, c, j - 1)
  }

  /** Python's `s.rfind(c)`: the last index of `c`, or -1. */
  function RFind(s: string, c: char): (k: int)
    ensures -1 <= k < |s|
    ensures k == -1 <==> c !in s
    ensures k >= 0 ==> s[k] == c && c !in s[k + 1..]
  {
    var k := RFindBefore(s, c, |s|);
    var tail := s[k + 1..];
    assert forall y :: 0 <= y < |tail| ==> tail[y] == s[k + 1 + y];
    k
  }

  /** The first occurrence is wherever `c` occurs with no `c` before it. */
  lemma FindAt(s: string, c: char, k: int)
    requires 0 <= k < |s| && s[k] == c && c !in s[..k]
    ensures Find(s, c) == k
  {
    var j := Find(s, c);
    assert c in s by { assert s[k] == c; }
    assert forall x :: 0 <= x < k ==> s[..k][x] == s[x];
    assert forall x :: k < x <= |s| ==> s[..x][k] == c;
  }

  /** The last occurrence is wherever `c` occurs with no `c` after it. */
  lemma RFindAt(s: string, c: char, k: int)
    requires 0 <= k < |s| && s[k] == c && c !in s[k + 1..]
    ensures RFind(s, c) == k
  {
    var j := RFind(s, c);
    assert c in s by { assert s[k] == c; }
    forall x | 0 < x <= k
      ensures c in s[x..]
    {
      assert s[x..][k - x] == c;
    }
  }

  /** The inverse of `Split`: the parts joined by `sep`. */
  function Join(parts: seq<string>, sep: char): string {
    if parts == [] then ""
    else if |parts| == 1 then parts[0]
    else parts[0] + [sep] + Join(parts[1..], sep)
  }

  /** Python's `s.split(sep)` for a one-character separator: never empty, "" gives [""]. */
  function Split(s: string, sep: char): (parts: seq<string>)
    ensures |parts| >= 1
    ensures forall i :: 0 <= i < |parts| ==> sep !in parts[i]
    ensures Join(parts, sep) == s
    decreases |s|
  {
    var k := Find(s, sep);
    if k < 0 then [s]
    else
      var rest := Split(s[k + 1..], sep);
      SplitStep(s, sep, k, rest);
      [s[..k]] + rest
  }

  /** The text before the first separator, then the split of the rest, joins back to `s`. */
  lemma SplitStep(s: string, sep: char, k: int, rest: seq<string>)
    requires 0 <= k < |s| && s[k] == sep && sep !in s[..k]
    requires |rest| >= 1 && Join(rest, sep) == s[k + 1..]
    requires forall i :: 0 <= i < |rest| ==> sep !in rest[i]
    ensures forall i :: 0 <= i < |rest| + 1 ==> sep !in ([s[..k]] + rest)[i]
    ensures Join([s[..k]] + rest, sep) == s
  {
    var parts := [s[..k]] + rest;
    assert parts[1..] == rest;
    assert forall i :: 1 <= i < |parts| ==> parts[i] == rest[i - 1];
    var j := s[..k] + [sep] + s[k + 1..];
    assert |j| == |s|;
    assert forall i :: 0 <= i < |s| ==> j[i] == s[i];
  }

  /** Splitting a join of separator-free parts gives the parts back. */
  lemma {:induction false} SplitJoin(parts: seq<string>, sep: char)
    requires |parts| >= 1
    requires forall i :: 0 <= i < |parts| ==> sep !in parts[i]
    ensures Split(Join(parts, sep), sep) == parts
  {
    if |parts| > 1 {
      var s := Join(parts, sep);
      assert s == parts[0] + [sep] + Join(parts[1..], sep);
      assert s[..|parts[0]|] == parts[0];
      assert s[|parts[0]|] == sep;
      assert sep !in s[..|parts[0]|];
      assert Find(s, sep) == |parts[0]|;
      assert s[|parts[0]| + 1..] == Join(parts[1..], sep);
      SplitJoin(parts[1..], sep);
    } else {
      assert Find(parts[0], sep) == -1;
    }
  }

  function DigitChar(d: nat): char
    requires d < 10
  {
    ('0' as int + d) as char
  }

  /** Python's `str(n)` for a non-negative integer. */
  function NatToString(n: nat): (r: string)
    ensures |r| >= 1
    ensures forall i :: 0 <= i < |r| ==> '0' <= r[i] <= '9'
  {
    if n < 10 then [DigitChar(n)] else NatToString(n / 10) + [DigitChar(n % 10)]
  }

  /** Python's `str(i)`. */
  function IntToString(i: int): string {
    if i < 0 then "-" + NatToString(-i) else NatToString(i)
  }
}
