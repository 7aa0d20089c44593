/** The Python string operations the agent relies on, written out over
    `seq<char>`: `find`, `in`, slicing, `strip`, `split`, `join`, `replace`,
    `upper`, repetition and `str(int)`. */
module Text {

  /** Python's `str.isspace()` on one character; `\s` in a `re` pattern over
      `str` matches the same characters. */
  predicate IsSpace(c: char) {
    var n := c as int;
    (9 <= n <= 13) || (28 <= n <= 32) || n == 0x85 || n == 0xA0 || n == 0x1680
    || (0x2000 <= n <= 0x200A) || n == 0x2028 || n == 0x2029 || n == 0x202F
    || n == 0x205F || n == 0x3000
  }

  /** `pat` occurs in `s` starting at index `i`. */
  predicate StartsAt(s: string, i: int, pat: string) {
    0 <= i && i + |pat| <= |s| && s[i..i + |pat|] == pat
  }

  /** Python's `pat in s`. */
  predicate Contains(s: string, pat: string) {
    exists i | 0 <= i <= |s| :: StartsAt(s, i, pat)
  }

  /** Python's `s.find(pat, i)`: the first occurrence at or after `i`, or -1. */
  function FindFrom(s: string, pat: string, i: nat): (r: int)
    requires i <= |s|
    ensures r == -1 || (i <= r <= |s| && StartsAt(s, r, pat))
    ensures r == -1 ==> forall j :: i <= j ==> !StartsAt(s, j, pat)
    ensures r != -1 ==> forall j :: i <= j < r ==> !StartsAt(s, j, pat)
    decreases |s| - i
  {
    if StartsAt(s, i, pat) then i
    else if i == |s| then -1
    else FindFrom(s, pat, i + 1)
  }

  /** Python's `s.find(pat)`. */
  function Find(s: string, pat: string): (r: int)
    ensures r == -1 <==> !Contains(s, pat)
    ensures r != -1 ==> 0 <= r <= |s| && StartsAt(s, r, pat)
    ensures r != -1 ==> forall j :: 0 <= j < r ==> !StartsAt(s, j, pat)
  {
    FindFrom(s, pat, 0)
  }

  /** Python's `s[a:b]` for indices inside the string: empty when `b < a`. */
  function Slice(s: string, a: nat, b: nat): (r: string)
    requires a <= |s| && b <= |s|
    ensures |r| == if a <= b then b - a else 0
  {
    if a <= b then s[a..b] else ""
  }

  /** Python's `s.lstrip()`. */
  function LStrip(s: string): (r: string)
    ensures |r| <= |s| && r == s[|s| - |r|..]
    ensures r == "" || !IsSpace(r[0])
    ensures forall k :: 0 <= k < |s| - |r| ==> IsSpace(s[k])
    decreases |s|
  {
    if s != "" && IsSpace(s[0]) then LStrip(s[1..]) else s
  }

  /** Python's `s.rstrip()`. */
  function RStrip(s: string): (r: string)
    ensures |r| <= |s| && r == s[..|r|]
    ensures r == "" || !IsSpace(r[|r| - 1])
    ensures forall k :: |r| <= k < |s| ==> IsSpace(s[k])
    decreases |s|
  {
    if s != "" && IsSpace(s[|s| - 1]) then RStrip(s[..|s| - 1]) else s
  }

  /** Neither end of `s` is whitespace. */
  predicate Stripped(s: string) {
    s == "" || (!IsSpace(s[0]) && !IsSpace(s[|s| - 1]))
  }

  /** How much leading whitespace `s.strip()` removes. */
  function StripOffset(s: string): (n: nat)
    ensures n <= |s|
  {
    |s| - |LStrip(s)|
  }

  /** Python's `s.strip()`: the part of `s` between its leading and its
      trailing whitespace. */
  function Strip(s: string): (r: string)
    ensures StripOffset(s) + |r| <= |s|
    ensures r == s[StripOffset(s)..StripOffset(s) + |r|]
    ensures Stripped(r)
  {
    var l := LStrip(s);
    var r := RStrip(l);
    assert l == s[StripOffset(s)..];
    assert r == l[..|r|];
    assert l[..|r|] == s[StripOffset(s)..StripOffset(s) + |r|];
    r
  }

  /** Python's `sep.join(parts)`. */
  function Join(parts: seq<string>, sep: string): string
    decreases |parts|
  {
    if |parts| == 0 then ""
    else if |parts| == 1 then parts[0]
    else parts[0] + sep + Join(parts[1..], sep)
  }

  /** Python's `s.split(sep)` for a non-empty separator. */
  function Split(s: string, sep: string): (parts: seq<string>)
    requires sep != ""
    ensures |parts| >= 1
    decreases |s|
  {
    var k := Find(s, sep);
    if k < 0 then [s] else [s[..k]] + Split(s[k + |sep|..], sep)
  }

  /** Python's `s.replace(pat, with)`: every occurrence, scanning left to right
      without overlap. */
  function Replace(s: string, pat: string, with: string): (r: string)
    requires pat != ""
    ensures !Contains(s, pat) ==> r == s
    decreases |s|
  {
    var k := Find(s, pat);
    if k < 0 then s else s[..k] + with + Replace(s[k + |pat|..], pat, with)
  }

  function UpperChar(c: char): char {
    if 'a' <= c <= 'z' then (c as int - 32) as char else c
  }

  /** Python's `s.upper()` on ASCII letters. */
  function Upper(s: string): (r: string)
    ensures |r| == |s|
    ensures forall k :: 0 <= k < |s| ==> r[k] == UpperChar(s[k])
  {
    seq(|s|, k requires 0 <= k < |s| => UpperChar(s[k]))
  }

  /** Python's `c * n` for a one-character string `c`. */
  function Repeat(c: char, n: nat): (r: string)
    ensures |r| == n
    ensures forall k :: 0 <= k < n ==> r[k] == c
  {
    seq(n, _ => c)
  }

  function DigitChar(d: int): char
    requires 0 <= d < 10
  {
    ('0' as int + d) as char
  }

  function NatToString(n: nat): (r: string)
    ensures |r| >= 1
    decreases n
  {
    if n < 10 then [DigitChar(n)] else NatToString(n / 10) + [DigitChar(n % 10)]
  }

  /** Python's `str(n)` for an integer. */
  function IntToString(n: int): (r: string)
    ensures |r| >= 1
  {
    if n < 0 then "-" + NatToString(-n) else NatToString(n)
  }

  // ---------------------------------------------------------------------
  // Lemmas

  lemma StripStripped(s: string)
    requires Stripped(s)
    ensures Strip(s) == s
  {
    assert LStrip(s) == s;
  }

  lemma StripIdempotent(s: string)
    ensures Strip(Strip(s)) == Strip(s)
  {
    StripStripped(Strip(s));
  }

  /** Leading whitespace does not change what `strip` returns. */
  lemma StripSkipsSpace(c: char, s: string)
    requires IsSpace(c)
    ensures Strip([c] + s) == Strip(s)
  {
    assert ([c] + s)[1..] == s;
  }

  lemma SliceOfSlice(s: string, a: nat, b: nat, i: nat, j: nat)
    requires a <= b <= |s| && i <= j <= b - a
    ensures s[a..b][i..j] == s[a + i..a + j]
  {
    assert forall k | 0 <= k < j - i :: s[a..b][i..j][k] == s[a + i + k];
  }

  /** An occurrence inside a substring is an occurrence in the whole. */
  lemma ContainsInSlice(s: string, a: nat, b: nat, pat: string)
    requires a <= b <= |s|
    requires Contains(s[a..b], pat)
    ensures Contains(s, pat)
  {
    var i :| 0 <= i <= b - a && StartsAt(s[a..b], i, pat);
    assert forall k | i <= k < i + |pat| :: s[a + k] == s[a..b][k];
    assert s[a + i..a + i + |pat|] == pat;
    assert StartsAt(s, a + i, pat);
  }

  /** An occurrence in the stripped string is an occurrence in the original. */
  lemma ContainsInStrip(s: string, pat: string)
    ensures Contains(Strip(s), pat) ==> Contains(s, pat)
  {
    if Contains(Strip(s), pat) {
      ContainsInSlice(s, StripOffset(s), StripOffset(s) + |Strip(s)|, pat);
    }
  }

  lemma JoinCons(x: string, tail: seq<string>, sep: string)
    requires |tail| >= 1
    ensures Join([x] + tail, sep) == x + sep + Join(tail, sep)
  {
    assert ([x] + tail)[1..] == tail;
  }

  /** One step of `split`: the text before the first separator, then the
      split of the rest. */
  lemma SplitStep(s: string, sep: string)
    requires sep != "" && Contains(s, sep)
    ensures var k := Find(s, sep);
      && Split(s, sep) == [s[..k]] + Split(s[k + |sep|..], sep)
      && s == s[..k] + sep + s[k + |sep|..]
  {
    var k := Find(s, sep);
    assert s[k..k + |sep|] == sep;
    assert s == s[..k] + s[k..k + |sep|] + s[k + |sep|..];
  }

  /** Joining the pieces of a split restores the string. */
  lemma {:induction false} JoinSplit(s: string, sep: string)
    requires sep != ""
    ensures Join(Split(s, sep), sep) == s
    decreases |s|
  {
    if Contains(s, sep) {
      var k := Find(s, sep);
      var rest := s[k + |sep|..];
      SplitStep(s, sep);
      JoinSplit(rest, sep);
      JoinCons(s[..k], Split(rest, sep), sep);
    }
  }

  /** No piece of a split contains the separator. */
  lemma {:induction false} SplitPiecesFree(s: string, sep: string)
    requires sep != ""
    ensures forall p :: p in Split(s, sep) ==> !Contains(p, sep)
    decreases |s|
  {
    var k := Find(s, sep);
    if k >= 0 {
      var rest := s[k + |sep|..];
      SplitPiecesFree(rest, sep);
      if Contains(s[..k], sep) {
        var i :| 0 <= i <= k && StartsAt(s[..k], i, sep);
        assert s[i..i + |sep|] == s[..k][i..i + |sep|];
        assert StartsAt(s, i, sep);
      }
    }
  }

  /** A pattern whose first character `c` occurs nowhere else in it cannot
      start inside `x` and run past its end when what follows `x` begins
      with `c`. */
  lemma NoStraddle(x: string, y: string, pat: string, c: char, a: int)
    requires |pat| > 0 && pat[0] == c && forall k :: 0 < k < |pat| ==> pat[k] != c
    requires |y| > 0 && y[0] == c
    requires 0 <= a < |x| < a + |pat|
    ensures !StartsAt(x + y, a, pat)
  {
    assert pat[|x| - a] != c;
    assert (x + y)[|x|] == c;
  }

  /** Nothing occurs in `s[c..m]` when no occurrence starts in that range. */
  lemma NoneInSlice(s: string, c: nat, m: nat, pat: string)
    requires c <= m <= |s|
    requires forall x :: c <= x < m ==> !StartsAt(s, x, pat)
    requires pat != ""
    ensures !Contains(s[c..m], pat)
  {
    forall i | 0 <= i <= m - c ensures !StartsAt(s[c..m], i, pat) {
      if i + |pat| <= m - c {
        assert !StartsAt(s, c + i, pat);
        SliceOfSlice(s, c, m, i, i + |pat|);
      }
    }
  }

  /** A pattern that does not contain the first character of `y` cannot
      start inside `x` and run past its end. */
  lemma NotAcross(x: string, y: string, pat: string, a: int)
    requires |y| > 0 && y[0] !in pat
    requires 0 <= a < |x| < a + |pat|
    ensures !StartsAt(x + y, a, pat)
  {
    assert (x + y)[|x|] == y[0];
    assert pat[|x| - a] in pat;
  }

  lemma LStripAppendSpace(s: string, c: char)
    requires IsSpace(c)
    ensures LStrip(s + [c]) == if LStrip(s) == "" then "" else LStrip(s) + [c]
    decreases |s|
  {
    if s != "" && IsSpace(s[0]) {
      assert (s + [c])[1..] == s[1..] + [c];
      LStripAppendSpace(s[1..], c);
    }
  }

  /** Trailing whitespace does not change what `strip` returns. */
  lemma StripDropsTrailingSpace(s: string, c: char)
    requires IsSpace(c)
    ensures Strip(s + [c]) == Strip(s)
  {
    LStripAppendSpace(s, c);
    var l := LStrip(s);
    if l != "" {
      assert (l + [c])[..|l|] == l;
    }
  }

  /** The separator cannot be found inside `part` once `sep` follows it:
      the first occurrence in `part + sep + ...` is the one after `part`. */
  predicate SeparatorFirstAfter(part: string, sep: string) {
    forall j :: 0 <= j < |part| ==> !StartsAt(part + sep, j, sep)
  }

  /** The first separator in `part + sep + rest` is the one after `part`. */
  lemma FindAfterPart(part: string, sep: string, rest: string)
    requires sep != "" && SeparatorFirstAfter(part, sep)
    ensures Find(part + sep + rest, sep) == |part|
  {
    var s := part + sep + rest;
    assert s[|part|..|part| + |sep|] == sep;
    assert StartsAt(s, |part|, sep);
    forall j | 0 <= j < |part|
      ensures !StartsAt(s, j, sep)
    {
      if StartsAt(s, j, sep) {
        assert s[j..j + |sep|] == (part + sep)[j..j + |sep|];
        assert StartsAt(part + sep, j, sep);
      }
    }
  }

  /** `sep.join(parts).split(sep)` gives the parts back when no separator
      starts inside a part. */
  lemma {:induction false} SplitJoin(parts: seq<string>, sep: string)
    requires sep != "" && |parts| >= 1
    requires forall i :: 0 <= i < |parts| - 1 ==> SeparatorFirstAfter(parts[i], sep)
    requires !Contains(parts[|parts| - 1], sep)
    ensures Split(Join(parts, sep), sep) == parts
    decreases |parts|
  {
    if |parts| > 1 {
      var p := parts[0];
      var rest := Join(parts[1..], sep);
      var s := Join(parts, sep);
      assert s == p + sep + rest;
      FindAfterPart(p, sep, rest);
      assert s[..|p|] == p;
      assert s[|p| + |sep|..] == rest;
      assert Split(s, sep) == [p] + Split(rest, sep);
      SplitJoin(parts[1..], sep);
      assert parts == [p] + parts[1..];
    }
  }

  /** Each part of a join occurs in it. */
  lemma {:induction false} JoinContains(parts: seq<string>, sep: string, i: int)
    requires 0 <= i < |parts|
    ensures Contains(Join(parts, sep), parts[i])
    decreases |parts|
  {
    var s := Join(parts, sep);
    if i == 0 {
      assert s[..|parts[0]|] == parts[0];
      assert StartsAt(s, 0, parts[0]);
    } else {
      var x := parts[0] + sep;
      var rest := Join(parts[1..], sep);
      assert s == x + rest;
      JoinContains(parts[1..], sep, i - 1);
      var j :| 0 <= j <= |rest| && StartsAt(rest, j, parts[i]);
      assert s[|x| + j..|x| + j + |parts[i]|] == rest[j..j + |parts[i]|];
      assert StartsAt(s, |x| + j, parts[i]);
    }
  }
}
