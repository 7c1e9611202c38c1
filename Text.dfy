/**
 * The JavaScript string primitives the catalog rules rely on: `trim`,
 * `toUpperCase`, the `\d` character class, decimal rendering of integers
 * and `Array.prototype.join`.
 */
module Text {

  /** The characters `String.prototype.trim` removes: ECMAScript WhiteSpace and LineTerminator. */
  predicate IsWhitespace(c: char) {
    || c == '\t' || c == '\n' || c == '\U{000B}' || c == '\U{000C}' || c == '\r' || c == ' '
    || c == '\U{00A0}' || c == '\U{1680}' || ('\U{2000}' <= c <= '\U{200A}')
    || c == '\U{2028}' || c == '\U{2029}' || c == '\U{202F}' || c == '\U{205F}'
    || c == '\U{3000}' || c == '\U{FEFF}'
  }

  predicate AllWhitespace(s: string) {
    forall i :: 0 <= i < |s| ==> IsWhitespace(s[i])
  }

  /** The regular-expression class `\d`: ASCII digits only. */
  predicate IsDigit(c: char) {
    '0' <= c <= '9'
  }

  predicate AllDigits(s: string) {
    forall i :: 0 <= i < |s| ==> IsDigit(s[i])
  }

  /** Drops leading whitespace. */
  function TrimStart(s: string): (r: string)
    ensures |r| <= |s|
    ensures r == [] || !IsWhitespace(r[0])
    decreases |s|
  {
    if s != [] && IsWhitespace(s[0]) then TrimStart(s[1..]) else s
  }

  /**
   * `String.prototype.length`: the number of UTF-16 code units, so a
   * character above U+FFFF (a surrogate pair) counts twice.
   */
  function Utf16Length(s: string): (r: nat)
    ensures |s| <= r <= 2 * |s|
  {
    if s == [] then 0 else (if s[0] as int > 0xFFFF then 2 else 1) + Utf16Length(s[1..])
  }

  /** Every character fits in one UTF-16 code unit. */
  predicate InBasicPlane(s: string) {
    forall i :: 0 <= i < |s| ==> s[i] as int <= 0xFFFF
  }

  /** The code-unit length is the character count exactly when no character lies above U+FFFF. */
  lemma {:induction false} Utf16LengthIsCount(s: string)
    ensures Utf16Length(s) == |s| <==> InBasicPlane(s)
  {
    if s != [] {
      Utf16LengthIsCount(s[1..]);
      assert InBasicPlane(s) <==> s[0] as int <= 0xFFFF && InBasicPlane(s[1..]) by {
        if s[0] as int <= 0xFFFF && InBasicPlane(s[1..]) {
          forall i | 1 <= i < |s| ensures s[i] as int <= 0xFFFF {
            assert s[i] == s[1..][i - 1];
          }
        }
      }
    }
  }

  /** Digits are one code unit each. */
  lemma DigitsUtf16Length(s: string)
    requires AllDigits(s)
    ensures Utf16Length(s) == |s|
  {
    Utf16LengthIsCount(s);
  }

  /** Drops trailing whitespace. */
  function TrimEnd(s: string): (r: string)
    ensures |r| <= |s|
    ensures r == [] || !IsWhitespace(r[|r| - 1])
    decreases |s|
  {
    if s != [] && IsWhitespace(s[|s| - 1]) then TrimEnd(s[..|s| - 1]) else s
  }

  /** `TrimStart` keeps a suffix and drops only whitespace. */
  lemma {:induction false} TrimStartIsSuffix(s: string)
    ensures TrimStart(s) == s[|s| - |TrimStart(s)|..]
    ensures AllWhitespace(s[..|s| - |TrimStart(s)|])
    decreases |s|
  {
    if s != [] && IsWhitespace(s[0]) {
      TrimStartIsSuffix(s[1..]);
      assert s[1..][..|s| - 1 - |TrimStart(s)|] == s[1..|s| - |TrimStart(s)|];
    }
  }

  /** `TrimEnd` keeps a prefix and drops only whitespace. */
  lemma {:induction false} TrimEndIsPrefix(s: string)
    ensures TrimEnd(s) == s[..|TrimEnd(s)|]
    ensures AllWhitespace(s[|TrimEnd(s)|..])
    decreases |s|
  {
    if s != [] && IsWhitespace(s[|s| - 1]) {
      TrimEndIsPrefix(s[..|s| - 1]);
      assert s[..|s| - 1][|TrimEnd(s)|..] == s[|TrimEnd(s)|..|s| - 1];
    }
  }

  /**
   * `String.prototype.trim`: whitespace removed from both ends; the result
   * neither starts nor ends with whitespace (see `TrimIsInfix` for what is kept).
   */
  function Trim(s: string): (r: string)
    ensures |r| <= |s|
    ensures r == [] || (!IsWhitespace(r[0]) && !IsWhitespace(r[|r| - 1]))
  {
    TrimEndIsPrefix(TrimStart(s));
    TrimEnd(TrimStart(s))
  }

  /** What `trim` removes is whitespace, from the two ends only. */
  lemma TrimIsInfix(s: string)
    ensures exists i :: 0 <= i <= |s| - |Trim(s)| && Trim(s) == s[i..i + |Trim(s)|]
                        && AllWhitespace(s[..i]) && AllWhitespace(s[i + |Trim(s)|..])
  {
    var i := |s| - |TrimStart(s)|;
    TrimKeepsMiddle(s, i);
  }

  /** The kept part of `trim` starts where `TrimStart` starts. */
  lemma TrimKeepsMiddle(s: string, i: nat)
    requires i == |s| - |TrimStart(s)|
    ensures i + |Trim(s)| <= |s| && Trim(s) == s[i..i + |Trim(s)|]
    ensures AllWhitespace(s[..i]) && AllWhitespace(s[i + |Trim(s)|..])
  {
    var t := TrimStart(s);
    TrimStartIsSuffix(s);
    assert t == s[i..];
    var r := TrimEnd(t);
    TrimEndIsPrefix(t);
    assert s[i + |r|..] == t[|r|..];
  }

  /** Trimming a string that has already been trimmed changes nothing. */
  lemma TrimIdempotent(s: string)
    ensures Trim(Trim(s)) == Trim(s)
  {
    var t := Trim(s);
    assert TrimStart(t) == t;
    assert TrimEnd(t) == t;
  }

  /** A string that neither starts nor ends with whitespace is its own trim. */
  lemma TrimUnchanged(s: string)
    requires s == [] || (!IsWhitespace(s[0]) && !IsWhitespace(s[|s| - 1]))
    ensures Trim(s) == s
  {
    assert TrimStart(s) == s;
    assert TrimEnd(s) == s;
  }

  /** A string trims to the empty string exactly when it is whitespace only. */
  lemma {:induction false} TrimEmptyIffBlank(s: string)
    ensures Trim(s) == [] <==> AllWhitespace(s)
  {
    TrimIsInfix(s);
  }

  /** The ASCII case mapping of `toUpperCase`. */
  function UpperChar(c: char): char {
    if 'a' <= c <= 'z' then (c as int - 32) as char else c
  }

  /** `String.prototype.toUpperCase`, restricted to the ASCII letters. */
  function ToUpper(s: string): (r: string)
    ensures |r| == |s|
    ensures forall i :: 0 <= i < |s| ==> r[i] == UpperChar(s[i])
  {
    if s == [] then [] else [UpperChar(s[0])] + ToUpper(s[1..])
  }

  lemma ToUpperIdempotent(s: string)
    ensures ToUpper(ToUpper(s)) == ToUpper(s)
  {
  }

  lemma ToUpperSlice(s: string, i: int, j: int)
    requires 0 <= i <= j <= |s|
    ensures ToUpper(s[i..j]) == ToUpper(s)[i..j]
  {
  }

  /**
   * Upper-casing never creates or removes whitespace, so it commutes with
   * trimming: the order of `.trim().toUpperCase()` does not matter.
   */
  lemma {:induction false} TrimToUpperCommute(s: string)
    ensures Trim(ToUpper(s)) == ToUpper(Trim(s))
  {
    TrimStartToUpper(s);
    TrimEndToUpper(TrimStart(s));
  }

  /** Upper-casing leaves whitespace alone and turns no other character into whitespace. */
  lemma UpperCharKeepsWhitespace(c: char)
    ensures IsWhitespace(c) ==> UpperChar(c) == c
    ensures IsWhitespace(UpperChar(c)) <==> IsWhitespace(c)
  {
  }

  lemma {:induction false} TrimStartToUpper(s: string)
    ensures TrimStart(ToUpper(s)) == ToUpper(TrimStart(s))
    decreases |s|
  {
    var u := ToUpper(s);
    if s == [] {
    } else if IsWhitespace(s[0]) {
      UpperCharKeepsWhitespace(s[0]);
      assert u[0] == s[0];
      assert u[1..] == ToUpper(s[1..]);
      calc {
        TrimStart(u);
        TrimStart(u[1..]);
        { TrimStartToUpper(s[1..]); }
        ToUpper(TrimStart(s[1..]));
      }
    } else {
      UpperCharKeepsWhitespace(s[0]);
      assert !IsWhitespace(u[0]);
    }
  }

  lemma {:induction false} TrimEndToUpper(s: string)
    ensures TrimEnd(ToUpper(s)) == ToUpper(TrimEnd(s))
    decreases |s|
  {
    var u := ToUpper(s);
    var n := |s|;
    if s == [] {
    } else if IsWhitespace(s[n - 1]) {
      UpperCharKeepsWhitespace(s[n - 1]);
      assert IsWhitespace(u[n - 1]);
      assert TrimEnd(u) == TrimEnd(u[..n - 1]);
      ToUpperSlice(s, 0, n - 1);
      TrimEndToUpper(s[..n - 1]);
    } else {
      UpperCharKeepsWhitespace(s[n - 1]);
      assert !IsWhitespace(u[n - 1]);
    }
  }

  function DigitChar(d: nat): char
    requires d < 10
  {
    ('0' as int + d) as char
  }

  function DigitValue(c: char): nat
    requires IsDigit(c)
  {
    c as int - '0' as int
  }

  /** Decimal rendering of a natural number, as `String(n)` gives it. */
  function NatToString(n: nat): (s: string)
    ensures |s| >= 1 && AllDigits(s)
    ensures s[0] == '0' ==> n == 0
    decreases n
  {
    if n < 10 then [DigitChar(n)] else NatToString(n / 10) + [DigitChar(n % 10)]
  }

  /** The value of a string of decimal digits. */
  function DigitsValue(s: string): nat
    requires AllDigits(s)
    decreases |s|
  {
    if s == [] then 0 else 10 * DigitsValue(s[..|s| - 1]) + DigitValue(s[|s| - 1])
  }

  /** Reading back a rendered number gives the number. */
  lemma {:induction false} NatToStringRoundTrip(n: nat)
    ensures DigitsValue(NatToString(n)) == n
    decreases n
  {
    if n >= 10 {
      var s := NatToString(n);
      assert s[..|s| - 1] == NatToString(n / 10);
      NatToStringRoundTrip(n / 10);
    }
  }

  /** Decimal rendering of an integer, as `String(i)` or a template literal gives it. */
  function IntToString(i: int): string {
    if i < 0 then "-" + NatToString(-i) else NatToString(i)
  }

  /** The decimal digits of `n` read back as `n`, and begin and end with a digit. */
  lemma NatToStringReadsBack(n: nat)
    ensures AllDigits(NatToString(n)) && DigitsValue(NatToString(n)) == n
    ensures IsDigit(NatToString(n)[0]) && IsDigit(NatToString(n)[|NatToString(n)| - 1])
  {
    NatToStringRoundTrip(n);
  }

  /** `String(i)` reads back as `i`: its digits, after a minus sign for a negative number. */
  lemma IntToStringReadsBack(i: int)
    ensures i >= 0 ==> AllDigits(IntToString(i)) && DigitsValue(IntToString(i)) == i
    ensures i < 0 ==> && IntToString(i)[0] == '-' && AllDigits(IntToString(i)[1..])
                      && DigitsValue(IntToString(i)[1..]) == -i
    ensures var s := IntToString(i); s != [] && !IsWhitespace(s[0]) && !IsWhitespace(s[|s| - 1])
  {
    if i >= 0 {
      NatToStringReadsBack(i);
    } else {
      var d := NatToString(-i);
      NatToStringReadsBack(-i);
      assert IntToString(i) == "-" + d;
      assert IntToString(i)[1..] == d;
      assert IntToString(i)[|IntToString(i)| - 1] == d[|d| - 1];
    }
  }

  /** `Array.prototype.join`. */
  function Join(parts: seq<string>, sep: string): (r: string)
    ensures parts == [] ==> r == []
    ensures |parts| == 1 ==> r == parts[0]
    decreases |parts|
  {
    if parts == [] then []
    else if |parts| == 1 then parts[0]
    else parts[0] + sep + Join(parts[1..], sep)
  }

  /** Where part `k` begins in the joined string: every earlier part and its separator come first. */
  function JoinOffset(parts: seq<string>, sep: string, k: nat): nat
    requires k <= |parts|
  {
    if k == 0 then 0 else JoinOffset(parts, sep, k - 1) + |parts[k - 1]| + |sep|
  }

  /** From where part `k` begins, the joined string is the join of the parts from `k` on. */
  lemma {:induction false} JoinSuffix(parts: seq<string>, sep: string, k: nat)
    requires k < |parts|
    ensures JoinOffset(parts, sep, k) <= |Join(parts, sep)|
    ensures Join(parts, sep)[JoinOffset(parts, sep, k)..] == Join(parts[k..], sep)
  {
    if k == 0 {
      assert parts[0..] == parts;
    } else {
      JoinSuffix(parts, sep, k - 1);
      var from := parts[k - 1..];
      assert from[1..] == parts[k..];
      assert Join(from, sep) == parts[k - 1] + sep + Join(parts[k..], sep);
      var j := Join(parts, sep);
      var o := JoinOffset(parts, sep, k - 1);
      assert j[o..][|parts[k - 1]| + |sep|..] == j[JoinOffset(parts, sep, k)..];
    }
  }

  /**
   * The layout of `parts.join(sep)`: the parts in order with one separator
   * between each two, so part `k` sits at `JoinOffset(parts, sep, k)` and is
   * followed by a separator unless it is the last.
   */
  lemma JoinLayout(parts: seq<string>, sep: string, k: nat)
    requires k < |parts|
    ensures |Join(parts, sep)| == JoinOffset(parts, sep, |parts| - 1) + |parts[|parts| - 1]|
    ensures JoinOffset(parts, sep, k) + |parts[k]| <= |Join(parts, sep)|
    ensures Join(parts, sep)[JoinOffset(parts, sep, k)..JoinOffset(parts, sep, k) + |parts[k]|] == parts[k]
    ensures k + 1 < |parts| ==>
              && JoinOffset(parts, sep, k + 1) == JoinOffset(parts, sep, k) + |parts[k]| + |sep|
              && JoinOffset(parts, sep, k + 1) <= |Join(parts, sep)|
              && Join(parts, sep)[JoinOffset(parts, sep, k) + |parts[k]|..JoinOffset(parts, sep, k + 1)] == sep
  {
    JoinLength(parts, sep);
    JoinSuffix(parts, sep, k);
    if k + 1 < |parts| {
      JoinPartThenSeparator(parts, sep, k);
    } else {
      assert parts[k..] == [parts[k]];
    }
  }

  lemma JoinLength(parts: seq<string>, sep: string)
    requires parts != []
    ensures |Join(parts, sep)| == JoinOffset(parts, sep, |parts| - 1) + |parts[|parts| - 1]|
  {
    var last := |parts| - 1;
    JoinSuffix(parts, sep, last);
    assert parts[last..] == [parts[last]];
  }

  lemma JoinPartThenSeparator(parts: seq<string>, sep: string, k: nat)
    requires k + 1 < |parts|
    ensures var o := JoinOffset(parts, sep, k);
              && o + |parts[k]| + |sep| <= |Join(parts, sep)|
              && Join(parts, sep)[o..o + |parts[k]|] == parts[k]
              && Join(parts, sep)[o + |parts[k]|..o + |parts[k]| + |sep|] == sep
  {
    JoinSuffix(parts, sep, k);
    var j := Join(parts, sep);
    var o := JoinOffset(parts, sep, k);
    var rest := Join(parts[k + 1..], sep);
    assert parts[k..][1..] == parts[k + 1..];
    JoinCons(parts[k..], sep);
    assert j[o..] == parts[k] + sep + rest;
    assert j[o..o + |parts[k]|] == j[o..][..|parts[k]|];
    assert j[o + |parts[k]|..o + |parts[k]| + |sep|] == j[o..][|parts[k]|..|parts[k]| + |sep|];
  }

  /** Two or more parts: the first, a separator, then the join of the rest. */
  lemma JoinCons(parts: seq<string>, sep: string)
    requires |parts| >= 2
    ensures Join(parts, sep) == parts[0] + sep + Join(parts[1..], sep)
  {
  }

  /** The joined string begins with the first part and is at least as long as every part. */
  lemma JoinContainsParts(parts: seq<string>, sep: string, k: nat)
    requires k < |parts|
    ensures |Join(parts, sep)| >= |parts[k]|
    ensures Join(parts, sep)[..|parts[0]|] == parts[0]
  {
    JoinLayout(parts, sep, k);
    JoinLayout(parts, sep, 0);
  }
}
