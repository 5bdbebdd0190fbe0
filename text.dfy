/** String helpers shared by the Java and Python parts of the model.
    Strings are sequences of characters; case mapping is the ASCII one. */
module Text {

  function LowerChar(c: char): char {
    if 'A' <= c <= 'Z' then (c as int - 'A' as int + 'a' as int) as char else c
  }

  /** `toLowerCase()` / `lower()` restricted to ASCII letters. */
  function Lower(s: string): (r: string)
    ensures |r| == |s|
    ensures forall i :: 0 <= i < |s| ==> r[i] == LowerChar(s[i])
  {
    seq(|s|, i requires 0 <= i < |s| => LowerChar(s[i]))
  }

  lemma LowerIdempotent(s: string)
    ensures Lower(Lower(s)) == Lower(s)
  {
  }

  /** Characters Java's `String.trim()` removes: every code point up to U+0020. */
  predicate IsJavaSpace(c: char) {
    c <= ' '
  }

  /** Characters Python's `str.isspace()` accepts, which `str.strip()` removes. */
  predicate IsPySpace(c: char) {
    var k := c as int;
    k == 0x20 || 0x09 <= k <= 0x0D || 0x1C <= k <= 0x1F || k == 0x85 || k == 0xA0
    || k == 0x1680 || 0x2000 <= k <= 0x200A || k == 0x2028 || k == 0x2029
    || k == 0x202F || k == 0x205F || k == 0x3000
  }

  function TrimLeft(s: string, sp: char -> bool): (r: string)
    ensures |r| <= |s| && r == s[|s| - |r|..]
    ensures r == [] || !sp(r[0])
  {
    if s != [] && sp(s[0]) then TrimLeft(s[1..], sp) else s
  }

  function TrimRight(s: string, sp: char -> bool): (r: string)
    ensures |r| <= |s| && r == s[..|r|]
    ensures r == [] || !sp(r[|r| - 1])
  {
    if s != [] && sp(s[|s| - 1]) then TrimRight(s[..|s| - 1], sp) else s
  }

  /** Java's `String.trim()`. */
  function JavaTrim(s: string): string {
    TrimRight(TrimLeft(s, IsJavaSpace), IsJavaSpace)
  }

  /** Python's `str.strip()`. */
  function PyStrip(s: string): string {
    TrimRight(TrimLeft(s, IsPySpace), IsPySpace)
  }

  /** Trimming a text that starts with a non-space and ends in exactly one
      space drops that one space. */
  lemma TrimDropsOneSpace(s: string, sp: char -> bool)
    requires |s| >= 2 && !sp(s[0]) && sp(s[|s| - 1]) && !sp(s[|s| - 2])
    ensures TrimRight(TrimLeft(s, sp), sp) == s[..|s| - 1]
  {
    assert TrimLeft(s, sp) == s;
    assert s[..|s| - 1][..|s| - 2] == s[..|s| - 2];
  }

  /** Trimming both ends keeps only characters of the text. */
  lemma TrimPart(s: string, sp: char -> bool)
    ensures var r := TrimRight(TrimLeft(s, sp), sp);
      |r| <= |s| && forall c :: c in r ==> c in s
  {
    var l := TrimLeft(s, sp);
    assert l == s[|s| - |l|..];
    assert TrimRight(l, sp) == l[..|TrimRight(l, sp)|];
  }

  function DigitChar(d: int): char
    requires 0 <= d < 10
  {
    ('0' as int + d) as char
  }

  /** Decimal digits of a natural number, most significant first. */
  function NatToString(n: nat): (r: string)
    ensures |r| >= 1
    ensures forall i :: 0 <= i < |r| ==> '0' <= r[i] <= '9'
  {
    if n < 10 then [DigitChar(n)] else NatToString(n / 10) + [DigitChar(n % 10)]
  }

  /** Java's `String.valueOf(int)`, Python's `str(int)`, `%d`. */
  function IntToString(n: int): string {
    if n < 0 then "-" + NatToString(-n) else NatToString(n)
  }

  /** `%02d` and `:02d`: at least two characters, zero-padded on the left;
      a negative number is never padded because its sign already makes two. */
  function Pad2(n: int): string {
    if 0 <= n < 10 then "0" + NatToString(n) else IntToString(n)
  }

  /** `p in s` on Python strings. */
  predicate IsSubstring(p: string, s: string) {
    (|p| <= |s| && s[..|p|] == p) || (s != [] && IsSubstring(p, s[1..]))
  }

  /** Python's `s.split(' ')[0]`: the text before the first space. */
  function FirstToken(s: string): (r: string)
    ensures |r| <= |s| && r == s[..|r|]
    ensures ' ' !in r
    ensures |r| < |s| ==> s[|r|] == ' '
  {
    if s == [] || s[0] == ' ' then [] else [s[0]] + FirstToken(s[1..])
  }

  /** The value of a string of decimal digits, most significant first. */
  function ParseNat(s: string): nat {
    if s == [] then 0
    else
      var d := s[|s| - 1] as int - '0' as int;
      ParseNat(s[..|s| - 1]) * 10 + (if 0 <= d < 10 then d else 0)
  }

  /** Reading the digits of a natural number back gives the number. */
  lemma {:induction false} ParseNatToString(n: nat)
    ensures ParseNat(NatToString(n)) == n
  {
    if n >= 10 {
      var s := NatToString(n);
      assert s[..|s| - 1] == NatToString(n / 10);
      ParseNatToString(n / 10);
    }
  }

  /** A leading zero does not change the value. */
  lemma {:induction false} ParseNatLeadingZero(s: string)
    ensures ParseNat("0" + s) == ParseNat(s)
  {
    if s != [] {
      var t := "0" + s;
      assert t[..|t| - 1] == "0" + s[..|s| - 1];
      ParseNatLeadingZero(s[..|s| - 1]);
    }
  }

  /** Reading a two-digit field back gives the number. */
  lemma ParsePad2(n: nat)
    requires n < 100
    ensures ParseNat(Pad2(n)) == n
    ensures ':' !in Pad2(n)
  {
    ParseNatToString(n);
    if n < 10 {
      ParseNatLeadingZero(NatToString(n));
    }
  }

  /** Python's `s.split(c)`: the pieces between the separators, in order. */
  function Split(s: string, c: char): (r: seq<string>)
    ensures |r| >= 1
  {
    if s == [] then [[]]
    else if s[0] == c then [[]] + Split(s[1..], c)
    else
      var rest := Split(s[1..], c);
      [[s[0]] + rest[0]] + rest[1..]
  }

  /** Splitting a text without the separator gives the text itself. */
  lemma {:induction false} SplitNone(s: string, c: char)
    requires c !in s
    ensures Split(s, c) == [s]
  {
    if s != [] {
      SplitNone(s[1..], c);
      assert [s[0]] + s[1..] == s;
    }
  }

  /** A separator after a piece without it splits the piece off. */
  lemma {:induction false} SplitFirst(a: string, c: char, b: string)
    requires c !in a
    ensures Split(a + [c] + b, c) == [a] + Split(b, c)
  {
    if a == [] {
      assert a + [c] + b == [c] + b;
    } else {
      var t := a + [c] + b;
      assert t[0] == a[0] && t[1..] == a[1..] + [c] + b;
      SplitFirst(a[1..], c, b);
      assert [a[0]] + a[1..] == a;
    }
  }
}
