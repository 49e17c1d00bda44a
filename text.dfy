/** The Python `str` operations the core relies on: `strip()`, `endswith()`,
    `split(",")` and the decimal rendering of an `int`. */
module Text {

  /** Python's `str.isspace` set (`Py_UNICODE_ISSPACE`), which is what
      `str.strip()` with no argument removes. */
  predicate IsSpace(c: char)
  {
    c == ' ' || c == '\t' || c == '\n' || c == '\r' || c == '\U{0b}' || c == '\U{0c}'
    || c == '\U{1c}' || c == '\U{1d}' || c == '\U{1e}' || c == '\U{1f}'
    || c == '\U{85}' || c == '\U{a0}' || c == '\U{1680}'
    || ('\U{2000}' <= c <= '\U{200a}')
    || c == '\U{2028}' || c == '\U{2029}' || c == '\U{202f}' || c == '\U{205f}' || c == '\U{3000}'
  }

  /** A string with no whitespace at either end: what `strip()` returns. */
  predicate IsStripped(s: string)
  {
    s == [] || (!IsSpace(s[0]) && !IsSpace(s[|s| - 1]))
  }

  /** `s.lstrip()`: the longest suffix of `s` that does not start with whitespace. */
  function TrimLeft(s: string): (r: string)
    ensures |r| <= |s| && r == s[|s| - |r|..]
    ensures forall k :: 0 <= k < |s| - |r| ==> IsSpace(s[k])
    ensures r == [] || !IsSpace(r[0])
  {
    if s != [] && IsSpace(s[0]) then TrimLeft(s[1..]) else s
  }

  /** `s.rstrip()`: the longest prefix of `s` that does not end with whitespace. */
  function TrimRight(s: string): (r: string)
    ensures |r| <= |s| && r == s[..|r|]
    ensures forall k :: |r| <= k < |s| ==> IsSpace(s[k])
    ensures r == [] || !IsSpace(r[|r| - 1])
  {
    if s != [] && IsSpace(s[|s| - 1]) then TrimRight(s[..|s| - 1]) else s
  }

  /** `s.strip()`: a prefix of `s.lstrip()` (itself a suffix of `s`) with no
      whitespace at either end; everything dropped from `s.lstrip()` is
      whitespace, as `TrimLeft` says of what it drops from `s`. */
  function Strip(s: string): (r: string)
    ensures IsStripped(r)
    ensures |r| <= |TrimLeft(s)| && r == TrimLeft(s)[..|r|]
    ensures forall k :: |r| <= k < |TrimLeft(s)| ==> IsSpace(TrimLeft(s)[k])
  {
    TrimRight(TrimLeft(s))
  }

  /** A string already free of surrounding whitespace is its own `strip()`. */
  lemma StripKeepsStripped(s: string)
    requires IsStripped(s)
    ensures Strip(s) == s
  {
    assert TrimLeft(s) == s;
  }

  /** `strip()` is idempotent. */
  lemma StripIdempotent(s: string)
    ensures Strip(Strip(s)) == Strip(s)
  {
    StripKeepsStripped(Strip(s));
  }

  /** A string made only of whitespace strips to the empty string, and only such a string does. */
  lemma StripEmptyIffAllSpace(s: string)
    ensures Strip(s) == [] <==> forall k :: 0 <= k < |s| ==> IsSpace(s[k])
  {
  }

  /** `s.endswith(suffix)`. */
  predicate EndsWith(s: string, suffix: string)
  {
    |suffix| <= |s| && s[|s| - |suffix|..] == suffix
  }

  /** `s.split(",")`: the pieces between commas, in order; never an empty list. */
  function SplitOnComma(s: string): (pieces: seq<string>)
    ensures |pieces| >= 1
    ensures forall i :: 0 <= i < |pieces| ==> ',' !in pieces[i]
  {
    if s == [] then [[]]
    else
      var rest := SplitOnComma(s[1..]);
      if s[0] == ',' then [[]] + rest
      else [[s[0]] + rest[0]] + rest[1..]
  }

  /** `",".join(pieces)`. */
  function JoinWithComma(pieces: seq<string>): string
    requires |pieces| >= 1
  {
    if |pieces| == 1 then pieces[0] else pieces[0] + [','] + JoinWithComma(pieces[1..])
  }

  /** Joining the pieces of a split gives back the original string. */
  lemma {:induction false} JoinSplit(s: string)
    ensures JoinWithComma(SplitOnComma(s)) == s
  {
    if s != [] {
      var rest := SplitOnComma(s[1..]);
      JoinSplit(s[1..]);
      if s[0] != ',' {
        if |rest| == 1 {
          assert JoinWithComma(rest) == rest[0];
        } else {
          assert JoinWithComma(rest) == rest[0] + [','] + JoinWithComma(rest[1..]);
          assert ([[s[0]] + rest[0]] + rest[1..])[1..] == rest[1..];
        }
      }
    }
  }

  /** Splitting a join of comma-free pieces gives back the pieces. */
  lemma {:induction false} SplitJoin(pieces: seq<string>)
    requires |pieces| >= 1
    requires forall i :: 0 <= i < |pieces| ==> ',' !in pieces[i]
    ensures SplitOnComma(JoinWithComma(pieces)) == pieces
  {
    var head := pieces[0];
    if |pieces| == 1 {
      SplitCommaFree(head, []);
      assert head + [] == head;
    } else {
      var rest := [','] + JoinWithComma(pieces[1..]);
      SplitJoin(pieces[1..]);
      assert rest[0] == ',' && rest[1..] == JoinWithComma(pieces[1..]);
      assert SplitOnComma(rest) == [[]] + pieces[1..];
      SplitCommaFree(head, rest);
      assert JoinWithComma(pieces) == head + rest;
      assert head + [] == head;
      assert [head] + pieces[1..] == pieces;
    }
  }

  /** A comma-free head in front of any text joins the first piece of its split. */
  lemma {:induction false} SplitCommaFree(head: string, rest: string)
    requires ',' !in head
    ensures SplitOnComma(head + rest) == [head + SplitOnComma(rest)[0]] + SplitOnComma(rest)[1..]
  {
    var split := SplitOnComma(rest);
    if head == [] {
      assert head + rest == rest;
      assert head + split[0] == split[0];
      assert [split[0]] + split[1..] == split;
    } else {
      var tail := SplitOnComma(head[1..] + rest);
      SplitCommaFree(head[1..], rest);
      ConsParts(head[1..] + split[0], split[1..]);
      assert tail[0] == head[1..] + split[0] && tail[1..] == split[1..];
      TailOfConcat(head, rest);
      assert SplitOnComma(head + rest) == [[head[0]] + tail[0]] + tail[1..];
      assert [head[0]] + (head[1..] + split[0]) == head + split[0];
    }
  }

  /** The parts of a sequence built from its head and its tail. */
  lemma ConsParts<T>(x: T, rest: seq<T>)
    ensures ([x] + rest)[0] == x && ([x] + rest)[1..] == rest
  {
  }

  /** Dropping the head of a concatenation drops the head of its left part. */
  lemma TailOfConcat<T>(a: seq<T>, b: seq<T>)
    requires a != []
    ensures (a + b)[0] == a[0] && (a + b)[1..] == a[1..] + b
  {
  }

  /** Concatenation associates. */
  lemma ConcatAssociates<T>(a: seq<T>, b: seq<T>, c: seq<T>)
    ensures a + (b + c) == (a + b) + c
  {
  }

  /** A prefix of a prefix is a prefix. */
  lemma PrefixOfPrefix<T>(t: seq<T>, p: seq<T>, k: nat, n: nat)
    requires |p| <= |t| && p == t[..|p|] && n <= k <= |p|
    ensures p[..k][..n] == t[..n]
  {
  }

  /** `p` is the slice of `s` that starts at `lo`. */
  predicate IsSliceAt<T(==)>(s: seq<T>, lo: int, p: seq<T>)
  {
    0 <= lo && lo + |p| <= |s| && p == s[lo..lo + |p|]
  }

  /** A prefix of a suffix is a slice. */
  lemma PrefixOfSuffix<T>(s: seq<T>, t: seq<T>, p: seq<T>)
    requires |t| <= |s| && t == s[|s| - |t|..]
    requires |p| <= |t| && p == t[..|p|]
    ensures IsSliceAt(s, |s| - |t|, p)
  {
  }

  /** Python's `str(n)` for an `int`. */
  function IntToString(n: int): (s: string)
    ensures s != []
  {
    if n < 0 then "-" + NatToString(-n) else NatToString(n)
  }

  function NatToString(n: nat): (s: string)
    ensures s != []
    ensures forall k :: 0 <= k < |s| ==> '0' <= s[k] <= '9'
  {
    if n < 10 then [DigitChar(n)] else NatToString(n / 10) + [DigitChar(n % 10)]
  }

  function DigitChar(d: nat): (c: char)
    requires d < 10
    ensures '0' <= c <= '9'
  {
    "0123456789"[d]
  }
}
