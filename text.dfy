/**
 * String primitives the application relies on: decimal rendering of
 * integers (Python `str(int)`), Python `int(str)`, `str.split()[0]`,
 * `str.lower()`, the substring test `a in b`, `", ".join(...)`, hex
 * identifiers, the count of `%s` placeholders in SQL text, and a total
 * order on strings used to render map keys in a fixed order.
 */
module Text {
  import opened Common

  // ---------------------------------------------------------------------
  // Decimal rendering

  function DigitChar(d: nat): (c: char)
    requires d < 10
    ensures '0' <= c <= '9' && c as int - '0' as int == d
  {
    ('0' as int + d) as char
  }

  predicate IsDigit(c: char) {
    '0' <= c <= '9'
  }

  function DigitValue(c: char): (d: nat)
    requires IsDigit(c)
    ensures d < 10 && DigitChar(d) == c
  {
    c as int - '0' as int
  }

  /** An optional string's truthiness, as a query parameter is tested: absent or empty is false. */
  predicate Given(p: Option<string>) {
    p.Some? && p.value != ""
  }

  /** The shortest decimal spelling of `n`, as Python's `str` and JSON print it. */
  function NatToString(n: nat): (s: string)
    ensures |s| >= 1 && forall i :: 0 <= i < |s| ==> IsDigit(s[i])
    ensures (|s| == 1) == (n < 10)
    ensures s[0] != '0' || n == 0
  {
    if n < 10 then [DigitChar(n)] else NatToString(n / 10) + [DigitChar(n % 10)]
  }

  function IntToString(n: int): (s: string)
    ensures |s| >= 1
  {
    if n < 0 then "-" + NatToString(-n) else NatToString(n)
  }

  /** Distinct numbers have distinct spellings. */
  lemma {:induction false} NatToStringInjective(a: nat, b: nat)
    requires NatToString(a) == NatToString(b)
    ensures a == b
  {
    if a >= 10 && b >= 10 {
      var sa, sb := NatToString(a), NatToString(b);
      assert sa[..|sa| - 1] == NatToString(a / 10);
      assert sb[..|sb| - 1] == NatToString(b / 10);
      NatToStringInjective(a / 10, b / 10);
      assert DigitChar(a % 10) == sa[|sa| - 1] == DigitChar(b % 10);
    }
  }

  lemma IntToStringInjective(a: int, b: int)
    requires IntToString(a) == IntToString(b)
    ensures a == b
  {
    var sa, sb := IntToString(a), IntToString(b);
    if a < 0 && b < 0 {
      assert NatToString(-a) == sa[1..] == sb[1..] == NatToString(-b);
      NatToStringInjective(-a, -b);
    } else if a >= 0 && b >= 0 {
      NatToStringInjective(a, b);
    }
  }

  // ---------------------------------------------------------------------
  // Python int(str)

  /** The characters `str.isspace()` accepts in the ASCII range. */
  predicate IsSpace(c: char) {
    c == ' ' || c == '\t' || c == '\n' || c == '\r' || c == '\U{B}' || c == '\U{C}'
    || ('\U{1C}' <= c <= '\U{1F}')
  }

  function TrimStart(s: string): (r: string)
    ensures |r| <= |s| && r == s[|s| - |r|..]
    ensures r == [] || !IsSpace(r[0])
    ensures forall i :: 0 <= i < |s| - |r| ==> IsSpace(s[i])
  {
    if s != [] && IsSpace(s[0]) then
      var t := s[1..];
      var r := TrimStart(t);
      assert t[|t| - |r|..] == s[|s| - |r|..];
      assert forall i :: 1 <= i < |s| - |r| ==> s[i] == t[i - 1];
      r
    else s
  }

  function TrimEnd(s: string): (r: string)
    ensures |r| <= |s| && r == s[..|r|]
    ensures r == [] || !IsSpace(r[|r| - 1])
  {
    if s != [] && IsSpace(s[|s| - 1]) then TrimEnd(s[..|s| - 1]) else s
  }

  /** Value of a string made only of decimal digits. */
  function DigitsValue(s: string): nat
    requires forall i :: 0 <= i < |s| ==> IsDigit(s[i])
  {
    if s == [] then 0 else DigitsValue(s[..|s| - 1]) * 10 + DigitValue(s[|s| - 1])
  }

  /** Digits, with single underscores allowed between two digits (`1_000`). */
  predicate WellFormedDigits(s: string) {
    && |s| > 0 && IsDigit(s[0]) && IsDigit(s[|s| - 1])
    && (forall i :: 0 <= i < |s| ==> IsDigit(s[i]) || s[i] == '_')
    && (forall i :: 0 <= i < |s| ==> !DoubleUnderscoreAt(s, i))
  }

  /** Positions `i` and `i + 1` both hold an underscore. */
  predicate DoubleUnderscoreAt(s: string, i: int)
    requires 0 <= i < |s|
  {
    i + 1 < |s| && s[i] == '_' && s[i + 1] == '_'
  }

  function DropUnderscores(s: string): (r: string)
    requires forall i :: 0 <= i < |s| ==> IsDigit(s[i]) || s[i] == '_'
    ensures forall i :: 0 <= i < |r| ==> IsDigit(r[i])
  {
    if s == [] then [] else (if s[0] == '_' then [] else [s[0]]) + DropUnderscores(s[1..])
  }

  /**
   * Python's `int(s)` on a string in base 10: surrounding whitespace, an
   * optional sign, then digits; `None` where Python raises `ValueError`.
   */
  function ParsePyInt(s: string): (r: Option<int>)
  {
    var t := TrimEnd(TrimStart(s));
    if t == [] then None else ParseSigned(t)
  }

  /** An optional sign followed by well-formed digits. */
  function ParseSigned(t: string): Option<int>
    requires t != []
  {
    var negative := t[0] == '-';
    var body := if t[0] == '-' || t[0] == '+' then t[1..] else t;
    if !WellFormedDigits(body) then None
    else if negative then Some(0 - DigitsValue(DropUnderscores(body)) as int)
    else Some(DigitsValue(DropUnderscores(body)))
  }

  lemma {:induction false} DigitsValueOfNatToString(n: nat)
    ensures DigitsValue(NatToString(n)) == n
  {
    if n >= 10 {
      var s := NatToString(n);
      assert s[..|s| - 1] == NatToString(n / 10);
      DigitsValueOfNatToString(n / 10);
    }
  }

  lemma {:induction false} DropUnderscoresOfDigits(s: string)
    requires forall i :: 0 <= i < |s| ==> IsDigit(s[i])
    ensures DropUnderscores(s) == s
  {
    if s != [] {
      DropUnderscoresOfDigits(s[1..]);
    }
  }

  lemma DigitsParse(digits: string)
    requires |digits| >= 1 && forall i :: 0 <= i < |digits| ==> IsDigit(digits[i])
    ensures WellFormedDigits(digits)
    ensures DropUnderscores(digits) == digits
  {
    DropUnderscoresOfDigits(digits);
  }

  lemma NoSpaceAround(s: string)
    requires |s| >= 1 && !IsSpace(s[0]) && !IsSpace(s[|s| - 1])
    ensures TrimEnd(TrimStart(s)) == s
  {
  }

  lemma ParseSignedOfNat(m: nat)
    ensures ParseSigned(NatToString(m)) == Some(m)
  {
    NatToStringParses(m);
    ParseSignedUnsigned(NatToString(m), m);
  }

  lemma ParseSignedOfNegated(m: nat)
    ensures ParseSigned("-" + NatToString(m)) == Some(0 - m as int)
  {
    NatToStringParses(m);
    ParseSignedNegative(NatToString(m), m);
  }

  /** A decimal spelling is well formed and reads back its number. */
  lemma NatToStringParses(m: nat)
    ensures WellFormedDigits(NatToString(m))
    ensures DropUnderscores(NatToString(m)) == NatToString(m)
    ensures DigitsValue(NatToString(m)) == m
  {
    DigitsParse(NatToString(m));
    DigitsValueOfNatToString(m);
  }

  lemma ParseSignedUnsigned(digits: string, v: nat)
    requires WellFormedDigits(digits) && DropUnderscores(digits) == digits && DigitsValue(digits) == v
    ensures ParseSigned(digits) == Some(v)
  {
    assert IsDigit(digits[0]);
  }

  lemma ParseSignedNegative(digits: string, v: nat)
    requires WellFormedDigits(digits) && DropUnderscores(digits) == digits && DigitsValue(digits) == v
    ensures ParseSigned("-" + digits) == Some(0 - v as int)
  {
    SignDropped(digits);
  }

  lemma SignDropped(digits: string)
    ensures ("-" + digits)[0] == '-' && ("-" + digits)[1..] == digits
  {
    var neg := "-" + digits;
    assert forall i :: 0 <= i < |digits| ==> neg[1..][i] == digits[i];
  }

  /** `int(str(n)) == n`: Python's integer rendering and parsing are inverse. */
  lemma ParsePyIntOfIntToString(n: int)
    ensures ParsePyInt(IntToString(n)) == Some(n)
  {
    IntToStringUnpadded(n);
    NoSpaceAround(IntToString(n));
    ParseSignedOfIntToString(n);
  }

  lemma ParseSignedOfIntToString(n: int)
    ensures ParseSigned(IntToString(n)) == Some(n)
  {
    if n < 0 {
      var m: nat := -n;
      assert IntToString(n) == "-" + NatToString(m);
      ParseSignedOfNegated(m);
    } else {
      assert IntToString(n) == NatToString(n);
      ParseSignedOfNat(n);
    }
  }

  lemma IntToStringUnpadded(n: int)
    ensures !IsSpace(IntToString(n)[0]) && !IsSpace(IntToString(n)[|IntToString(n)| - 1])
  {
    var d := NatToString(if n < 0 then -n else n);
    assert IsDigit(d[0]) && IsDigit(d[|d| - 1]);
  }

  // ---------------------------------------------------------------------
  // str.split()[0]

  /** Length of the leading run of non-whitespace characters. */
  function WordLength(s: string): (n: nat)
    ensures n <= |s|
    ensures forall i :: 0 <= i < n ==> !IsSpace(s[i])
    ensures n == |s| || IsSpace(s[n])
  {
    if s == [] || IsSpace(s[0]) then 0 else 1 + WordLength(s[1..])
  }

  /** `s.split()[0]`, or `None` where Python raises `IndexError` (blank `s`). */
  function FirstWord(s: string): (r: Option<string>)
    ensures r.Some? ==> r.value != [] && forall i :: 0 <= i < |r.value| ==> !IsSpace(r.value[i])
    ensures r.None? <==> forall i :: 0 <= i < |s| ==> IsSpace(s[i])
  {
    var t := TrimStart(s);
    if t == [] then None else Some(t[..WordLength(t)])
  }

  // ---------------------------------------------------------------------
  // Case and substrings

  /** `str.lower()` on the ASCII range (other characters are left as they are). */
  function LowerChar(c: char): (r: char)
    ensures !('A' <= r <= 'Z')
  {
    if 'A' <= c <= 'Z' then (c as int + 32) as char else c
  }

  function Lower(s: string): (r: string)
    ensures |r| == |s| && forall i :: 0 <= i < |s| ==> r[i] == LowerChar(s[i])
  {
    if s == [] then [] else [LowerChar(s[0])] + Lower(s[1..])
  }

  predicate IsPrefix(p: string, s: string) {
    |p| <= |s| && s[..|p|] == p
  }

  /** Python's `sub in s` on strings. */
  predicate Contains(s: string, sub: string)
    decreases |s|
  {
    IsPrefix(sub, s) || (s != [] && Contains(s[1..], sub))
  }

  /** `sub` occurs in `s` starting at offset `i`. */
  predicate OccursAt(s: string, sub: string, i: int) {
    0 <= i <= |s| - |sub| && s[i..i + |sub|] == sub
  }

  /** The substring test holds exactly when `sub` occurs at some offset of `s`. */
  lemma {:induction false} ContainsAt(s: string, sub: string)
    ensures Contains(s, sub) <==> exists i :: OccursAt(s, sub, i)
  {
    if IsPrefix(sub, s) {
      assert OccursAt(s, sub, 0);
    } else if s != [] {
      ContainsAt(s[1..], sub);
      if Contains(s[1..], sub) {
        var i :| OccursAt(s[1..], sub, i);
        assert s[i + 1..i + 1 + |sub|] == s[1..][i..i + |sub|];
        assert OccursAt(s, sub, i + 1);
      }
      if exists i :: OccursAt(s, sub, i) {
        var i :| OccursAt(s, sub, i);
        assert i != 0;
        assert s[1..][i - 1..i - 1 + |sub|] == s[i..i + |sub|];
        assert OccursAt(s[1..], sub, i - 1);
      }
    } else {
      assert forall i :: !OccursAt(s, sub, i);
    }
  }

  /** The empty string is a substring of every string. */
  lemma EmptyContained(s: string)
    ensures Contains(s, "")
  {
    assert IsPrefix("", s);
  }

  /** Every string contains itself. */
  lemma ContainsSelf(s: string)
    ensures Contains(s, s)
  {
    assert IsPrefix(s, s);
  }

  /** `sep.join(parts)`. */
  function Join(parts: seq<string>, sep: string): string {
    if parts == [] then ""
    else if |parts| == 1 then parts[0]
    else parts[0] + sep + Join(parts[1..], sep)
  }

  // ---------------------------------------------------------------------
  // Hex identifiers

  predicate IsHexChar(c: char) {
    IsDigit(c) || ('a' <= c <= 'f') || ('A' <= c <= 'F')
  }

  predicate IsLowerHex(s: string) {
    forall i :: 0 <= i < |s| ==> IsDigit(s[i]) || ('a' <= s[i] <= 'f')
  }

  /** What `secrets.token_hex(12)` returns: 24 lower-case hex digits. */
  predicate IsTokenHex12(s: string) {
    |s| == 24 && IsLowerHex(s)
  }

  /** What `bson.ObjectId(s)` accepts for a string `s`: exactly 24 hex digits. */
  predicate IsObjectIdHex(s: string) {
    |s| == 24 && forall i :: 0 <= i < |s| ==> IsHexChar(s[i])
  }

  // ---------------------------------------------------------------------
  // SQL placeholders

  /** Number of `%s` placeholders that the driver fills, scanning left to right. */
  function Placeholders(s: string): nat {
    if |s| < 2 then 0
    else if s[0] == '%' && s[1] == 's' then 1 + Placeholders(s[2..])
    else Placeholders(s[1..])
  }

  predicate EndsWithPercent(s: string) {
    |s| > 0 && s[|s| - 1] == '%'
  }

  predicate NoPercent(s: string) {
    forall i :: 0 <= i < |s| ==> s[i] != '%'
  }

  /** Text without `%` holds no placeholder and cannot complete one that follows it. */
  lemma {:induction false} PlaceholdersSkip(a: string, b: string)
    requires NoPercent(a)
    ensures Placeholders(a + b) == Placeholders(b)
  {
    if a == [] {
      assert a + b == b;
    } else {
      assert (a + b)[0] == a[0] != '%';
      assert (a + b)[1..] == a[1..] + b;
      assert NoPercent(a[1..]);
      PlaceholdersSkip(a[1..], b);
      if |a + b| < 2 {
        assert |b| < 2;
      }
    }
  }

  lemma PlaceholdersMark(b: string)
    ensures Placeholders("%s" + b) == 1 + Placeholders(b)
  {
    assert ("%s" + b)[2..] == b;
  }

  /** Counting placeholders distributes over concatenation unless a `%` is cut from its `s`. */
  lemma {:induction false} PlaceholdersAppend(a: string, b: string)
    requires !EndsWithPercent(a)
    ensures Placeholders(a + b) == Placeholders(a) + Placeholders(b)
  {
    if a == [] {
      assert a + b == b;
    } else if |a| >= 2 && a[0] == '%' && a[1] == 's' {
      assert (a + b)[2..] == a[2..] + b;
      PlaceholdersAppend(a[2..], b);
    } else {
      assert (a + b)[1..] == a[1..] + b;
      if |a| == 1 {
        assert a[0] != '%';
        assert a[1..] == [];
      } else {
        PlaceholdersAppend(a[1..], b);
      }
    }
  }

  // ---------------------------------------------------------------------
  // A total order on strings, for rendering maps in a fixed key order

  /** Lexicographic order on code points. */
  predicate StrLt(a: string, b: string) {
    if a == [] then b != []
    else b != [] && (a[0] < b[0] || (a[0] == b[0] && StrLt(a[1..], b[1..])))
  }

  predicate StrLe(a: string, b: string) {
    a == b || StrLt(a, b)
  }

  lemma {:induction false} StrLtIrreflexiveAsym(a: string, b: string)
    ensures !(StrLt(a, b) && StrLt(b, a))
  {
    if a != [] && b != [] && a[0] == b[0] {
      StrLtIrreflexiveAsym(a[1..], b[1..]);
    }
  }

  lemma {:induction false} StrLtTotal(a: string, b: string)
    ensures a == b || StrLt(a, b) || StrLt(b, a)
  {
    if a != [] && b != [] && a[0] == b[0] {
      StrLtTotal(a[1..], b[1..]);
      if a[1..] == b[1..] {
        assert a == [a[0]] + a[1..] && b == [b[0]] + b[1..];
      }
    }
  }

  lemma {:induction false} StrLtTransitive(a: string, b: string, c: string)
    requires StrLt(a, b) && StrLt(b, c)
    ensures StrLt(a, c)
  {
    if a != [] && a[0] == b[0] && b[0] == c[0] {
      StrLtTransitive(a[1..], b[1..], c[1..]);
    }
  }

  predicate IsLeast(k: string, ks: set<string>) {
    k in ks && forall j :: j in ks ==> StrLe(k, j)
  }

  lemma {:induction false} LeastExists(ks: set<string>)
    requires ks != {}
    ensures exists k :: IsLeast(k, ks)
    decreases ks
  {
    var x :| x in ks;
    if ks - {x} == {} {
      assert ks == {x};
      assert IsLeast(x, ks);
    } else {
      LeastExists(ks - {x});
      var m :| IsLeast(m, ks - {x});
      StrLtTotal(x, m);
      if StrLt(x, m) {
        forall j | j in ks ensures StrLe(x, j) {
          if j != x {
            assert j in ks - {x};
            if j != m {
              StrLtTransitive(x, m, j);
            }
          }
        }
        assert IsLeast(x, ks);
      } else {
        assert IsLeast(m, ks);
      }
    }
  }

  lemma LeastUnique(ks: set<string>)
    ensures forall a, b :: IsLeast(a, ks) && IsLeast(b, ks) ==> a == b
  {
    forall a, b | IsLeast(a, ks) && IsLeast(b, ks) ensures a == b {
      StrLtIrreflexiveAsym(a, b);
    }
  }

  /** The least key of a non-empty key set. */
  function MinKey(ks: set<string>): (k: string)
    requires ks != {}
    ensures k in ks && forall j :: j in ks ==> StrLe(k, j)
  {
    LeastExists(ks);
    LeastUnique(ks);
    var k :| IsLeast(k, ks);
    k
  }

  /** The keys of `ks` in increasing order. */
  function SortedKeys(ks: set<string>): (r: seq<string>)
    ensures |r| == |ks|
    ensures forall i :: 0 <= i < |r| ==> r[i] in ks
    ensures forall k :: k in ks ==> k in r
    decreases ks
  {
    if ks == {} then []
    else
      var k := MinKey(ks);
      [k] + SortedKeys(ks - {k})
  }
}
