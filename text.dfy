/**
 * String helpers shared by the Go back end and the TypeScript front end:
 * whitespace trimming as Go's strings.TrimSpace and JavaScript's
 * String.prototype.trim define it, the byte length Go's len reports,
 * ASCII lower-casing, substring search, splitting on one character,
 * joining with a separator and decimal rendering of integers.
 */
module Text {

  /** Go's unicode.IsSpace. */
  predicate IsGoSpace(c: char) {
    var n := c as int;
    (0x09 <= n <= 0x0D) || n == 0x20 || n == 0x85 || n == 0xA0 || n == 0x1680
    || (0x2000 <= n <= 0x200A) || n == 0x2028 || n == 0x2029 || n == 0x202F
    || n == 0x205F || n == 0x3000
  }

  /** The WhiteSpace and LineTerminator code points that String.prototype.trim removes. */
  predicate IsJsSpace(c: char) {
    var n := c as int;
    (0x09 <= n <= 0x0D) || n == 0x20 || n == 0xA0 || n == 0x1680
    || (0x2000 <= n <= 0x200A) || n == 0x2028 || n == 0x2029 || n == 0x202F
    || n == 0x205F || n == 0x3000 || n == 0xFEFF
  }

  /** Every character of `s` is a space in the sense of `sp`. */
  predicate AllSpace(s: string, sp: char -> bool) {
    forall k | 0 <= k < |s| :: sp(s[k])
  }

  /** No space at either end. */
  predicate IsTrimmed(s: string, sp: char -> bool) {
    s == [] || (!sp(s[0]) && !sp(s[|s| - 1]))
  }

  function TrimLeft(s: string, sp: char -> bool): (r: string)
    ensures |r| <= |s| && r == s[|s| - |r|..]
    ensures r == [] || !sp(r[0])
    ensures forall k | 0 <= k < |s| - |r| :: sp(s[k])
  {
    if s == [] || !sp(s[0]) then s else TrimLeft(s[1..], sp)
  }

  function TrimRight(s: string, sp: char -> bool): (r: string)
    ensures |r| <= |s| && r == s[..|r|]
    ensures r == [] || !sp(r[|r| - 1])
    ensures forall k | |r| <= k < |s| :: sp(s[k])
  {
    if s == [] || !sp(s[|s| - 1]) then s else TrimRight(s[..|s| - 1], sp)
  }

  /** Removes the leading and the trailing run of spaces. */
  function Trim(s: string, sp: char -> bool): (r: string)
    ensures IsTrimmed(r, sp)
    ensures |r| <= |s|
    ensures r == [] <==> AllSpace(s, sp)
    ensures IsTrimmed(s, sp) ==> r == s
    ensures StripsEnds(s, r, sp)
  {
    var l := TrimLeft(s, sp);
    var r := TrimRight(l, sp);
    assert r != [] ==> !sp(r[0]) by {
      if r != [] { assert r[0] == l[0]; }
    }
    CutEnds(s, l, r, sp);
    r
  }

  /** Cutting a run of spaces from the front and then from the back strips both ends. */
  lemma CutEnds(s: string, l: string, r: string, sp: char -> bool)
    requires |l| <= |s| && l == s[|s| - |l|..] && forall k | 0 <= k < |s| - |l| :: sp(s[k])
    requires |r| <= |l| && r == l[..|r|] && forall k | |r| <= k < |l| :: sp(l[k])
    ensures StripsEnds(s, r, sp)
  {
    var i, j := |s| - |l|, |s| - |l| + |r|;
    assert r == s[i..j];
    assert AllSpace(s[..i], sp);
    assert AllSpace(s[j..], sp) by {
      forall k | 0 <= k < |s| - j ensures sp(s[j..][k]) {
        assert s[j..][k] == l[|r| + k];
      }
    }
  }

  /** `r` is `s` with a run of spaces removed from each end and nothing else. */
  predicate StripsEnds(s: string, r: string, sp: char -> bool) {
    exists i, j | 0 <= i <= j <= |s| :: r == s[i..j] && AllSpace(s[..i], sp) && AllSpace(s[j..], sp)
  }

  /** strings.TrimSpace. */
  function GoTrim(s: string): (r: string)
    ensures IsTrimmed(r, IsGoSpace)
    ensures IsTrimmed(s, IsGoSpace) ==> r == s
    ensures r == [] <==> AllSpace(s, IsGoSpace)
    ensures StripsEnds(s, r, IsGoSpace)
  {
    Trim(s, IsGoSpace)
  }

  /** String.prototype.trim. */
  function JsTrim(s: string): (r: string)
    ensures IsTrimmed(r, IsJsSpace)
    ensures r == [] <==> AllSpace(s, IsJsSpace)
    ensures StripsEnds(s, r, IsJsSpace)
  {
    Trim(s, IsJsSpace)
  }

  /** Number of bytes of the UTF-8 encoding of one scalar value. */
  function Utf8Width(c: char): (n: nat)
    ensures 1 <= n <= 4
    ensures n == 1 <==> (c as int) < 0x80
    ensures n == 2 <==> 0x80 <= (c as int) < 0x800
    ensures n == 3 <==> 0x800 <= (c as int) < 0x10000
    ensures n == 4 <==> 0x10000 <= (c as int)
  {
    var v := c as int;
    if v < 0x80 then 1 else if v < 0x800 then 2 else if v < 0x10000 then 3 else 4
  }

  /** Go's len on a string: the length of its UTF-8 encoding in bytes. */
  function Utf8Length(s: string): (n: nat)
    ensures |s| <= n <= 4 * |s|
  {
    if s == [] then 0 else Utf8Width(s[0]) + Utf8Length(s[1..])
  }

  /** The byte length equals the character count exactly when the text is ASCII. */
  lemma {:induction false} Utf8LengthAscii(s: string)
    ensures Utf8Length(s) == |s| <==> forall k | 0 <= k < |s| :: (s[k] as int) < 0x80
  {
    if s != [] {
      Utf8LengthAscii(s[1..]);
      assert forall k | 1 <= k < |s| :: s[k] == s[1..][k - 1];
    }
  }

  /** The byte length of a concatenation is the sum of the byte lengths. */
  lemma {:induction false} Utf8LengthAppend(a: string, b: string)
    ensures Utf8Length(a + b) == Utf8Length(a) + Utf8Length(b)
  {
    if a == [] {
      assert a + b == b;
    } else {
      assert (a + b)[0] == a[0];
      assert (a + b)[1..] == a[1..] + b;
      Utf8LengthAppend(a[1..], b);
    }
  }

  function AsciiLowerChar(c: char): char {
    if 'A' <= c <= 'Z' then (c as int + 32) as char else c
  }

  /** Lower-casing restricted to ASCII letters. */
  function AsciiLower(s: string): (r: string)
    ensures |r| == |s|
    ensures forall k | 0 <= k < |s| :: r[k] == AsciiLowerChar(s[k])
  {
    seq(|s|, k requires 0 <= k < |s| => AsciiLowerChar(s[k]))
  }

  predicate HasPrefix(s: string, prefix: string) {
    |prefix| <= |s| && s[..|prefix|] == prefix
  }

  /** strings.TrimPrefix: drops one leading copy of `prefix`, if present. */
  function TrimPrefix(s: string, prefix: string): (r: string)
    ensures HasPrefix(s, prefix) ==> prefix + r == s
    ensures !HasPrefix(s, prefix) ==> r == s
  {
    if HasPrefix(s, prefix) then s[|prefix|..] else s
  }

  /** `sub` occurs in `s` starting at position `i`. */
  predicate OccursAt(s: string, sub: string, i: int) {
    0 <= i <= |s| - |sub| && s[i..i + |sub|] == sub
  }

  /** `sub` occurs in `s` as a contiguous block. */
  predicate Contains(s: string, sub: string) {
    exists i | 0 <= i <= |s| - |sub| :: OccursAt(s, sub, i)
  }

  /** Joins the parts with `sep` between consecutive parts. */
  function Join(parts: seq<string>, sep: string): string {
    if |parts| == 0 then []
    else if |parts| == 1 then parts[0]
    else parts[0] + sep + Join(parts[1..], sep)
  }

  /** strings.Split with a one-character separator. */
  function Split(s: string, c: char): (parts: seq<string>)
    ensures |parts| == multiset(s)[c] + 1
    ensures forall i | 0 <= i < |parts| :: c !in parts[i]
  {
    if s == [] then [[]]
    else
      var rest := Split(s[1..], c);
      assert s == [s[0]] + s[1..];
      if s[0] == c then [[]] + rest else [[s[0]] + rest[0]] + rest[1..]
  }

  /** Splitting and joining on the same character gives the string back. */
  lemma {:induction false} SplitJoin(s: string, c: char)
    ensures Join(Split(s, c), [c]) == s
  {
    if s != [] {
      SplitJoin(s[1..], c);
      var rest := Split(s[1..], c);
      SplitCons(s, c);
      if s[0] == c {
        JoinCons([], rest, [c]);
        assert [] + [c] + s[1..] == s;
      } else {
        JoinPrepend(s[0], rest, [c]);
        assert [s[0]] + s[1..] == s;
      }
    }
  }

  /** One step of strings.Split on a non-empty string. */
  lemma SplitCons(s: string, c: char)
    requires s != []
    ensures var rest := Split(s[1..], c);
      Split(s, c) == if s[0] == c then [[]] + rest else [[s[0]] + rest[0]] + rest[1..]
  {
  }

  /** Joining a first part onto a non-empty list puts the separator after it. */
  lemma JoinCons(p: string, parts: seq<string>, sep: string)
    requires |parts| >= 1
    ensures Join([p] + parts, sep) == p + sep + Join(parts, sep)
  {
    assert ([p] + parts)[1..] == parts;
  }

  /** Prepending a character to the first part prepends it to the join. */
  lemma JoinPrepend(x: char, parts: seq<string>, sep: string)
    requires |parts| >= 1
    ensures Join([[x] + parts[0]] + parts[1..], sep) == [x] + Join(parts, sep)
  {
    var q := [[x] + parts[0]] + parts[1..];
    if |parts| > 1 {
      var tail := Join(parts[1..], sep);
      assert q[1..] == parts[1..];
      assert Join(q, sep) == [x] + parts[0] + sep + tail;
      assert Join(parts, sep) == parts[0] + sep + tail;
    }
  }

  /** A prefix free of the separator is split off as the first part. */
  lemma {:induction false} SplitAfterFirst(a: string, c: char, b: string)
    requires c !in a
    ensures Split(a + [c] + b, c) == [a] + Split(b, c)
  {
    if a == [] {
      assert a + [c] + b == [c] + b;
      assert ([c] + b)[1..] == b;
    } else {
      assert (a + [c] + b)[1..] == a[1..] + [c] + b;
      SplitAfterFirst(a[1..], c, b);
      assert [a[0]] + a[1..] == a;
    }
  }

  /** A string free of the separator is one part. */
  lemma {:induction false} SplitNone(s: string, c: char)
    requires c !in s
    ensures Split(s, c) == [s]
  {
    if s != [] {
      SplitNone(s[1..], c);
      assert [s[0]] + s[1..] == s;
    }
  }

  function DigitChar(d: nat): char
    requires d < 10
  {
    "0123456789"[d]
  }

  function NatToDecimal(n: nat): (r: string)
    ensures |r| >= 1
    ensures forall k | 0 <= k < |r| :: '0' <= r[k] <= '9'
  {
    if n < 10 then [DigitChar(n)] else NatToDecimal(n / 10) + [DigitChar(n % 10)]
  }

  /** The number a string of decimal digits denotes, most significant digit first. */
  function DecimalValue(s: string): nat
    requires forall k | 0 <= k < |s| :: '0' <= s[k] <= '9'
  {
    if s == [] then 0 else 10 * DecimalValue(s[..|s| - 1]) + (s[|s| - 1] as int - '0' as int)
  }

  /** The digit of `d` denotes `d`. */
  lemma DigitValue(d: nat)
    requires d < 10
    ensures DigitChar(d) as int - '0' as int == d
  {
    if d == 0 {} else if d == 1 {} else if d == 2 {} else if d == 3 {} else if d == 4 {}
    else if d == 5 {} else if d == 6 {} else if d == 7 {} else if d == 8 {} else {}
  }

  /** The decimal form reads back as the number, with no leading zero. */
  lemma {:induction false} NatToDecimalValue(n: nat)
    ensures DecimalValue(NatToDecimal(n)) == n
    ensures NatToDecimal(n)[0] == '0' <==> n == 0
  {
    var r := NatToDecimal(n);
    if n < 10 {
      DigitValue(n);
      assert r[..0] == [];
    } else {
      NatToDecimalValue(n / 10);
      DigitValue(n % 10);
      var p := NatToDecimal(n / 10);
      assert r[..|r| - 1] == p;
      assert r[0] == p[0];
    }
  }

  /** The decimal form JavaScript gives an integral number in a template literal. */
  function IntToDecimal(n: int): (r: string)
    ensures |r| >= 1
    ensures (r[0] == '-') <==> n < 0
  {
    if n < 0 then "-" + NatToDecimal(-n) else NatToDecimal(n)
  }
}
