/**
  JavaScript value semantics that the client relies on: optional values,
  numbers that may be NaN, number-to-string conversion inside template
  literals, `String.prototype.includes`, `trim` and `toLowerCase`.
 */
module Js {

  datatype Option<+T> = None | Some(value: T)

  datatype Result<+T, +E> = Ok(value: T) | Err(error: E)

  /** A JavaScript number as the client uses it for ids and counts: an integer or NaN. */
  datatype Number = Num(n: int) | NaN

  /** `!!x` for a number: false for 0 and for NaN. */
  predicate Truthy(x: Number) {
    x.Num? && x.n != 0
  }

  /** The guard `!id || isNaN(id)` used by the services rejects exactly the falsy numbers. */
  predicate InvalidId(x: Number) {
    (!Truthy(x)) || x.NaN?
  }

  lemma InvalidIdIsFalsy(x: Number)
    ensures InvalidId(x) <==> !Truthy(x)
    ensures !InvalidId(x) ==> x.Num? && x.n != 0
  {
  }

  // ---------------------------------------------------------------------
  // Number to string, as `${n}` renders an integer.

  function DigitChar(d: int): (c: char)
    requires 0 <= d < 10
    ensures '0' <= c <= '9'
    ensures c as int - '0' as int == d
  {
    (d + '0' as int) as char
  }

  predicate IsDigit(c: char) {
    '0' <= c <= '9'
  }

  function DigitValue(c: char): int {
    c as int - '0' as int
  }

  function NatToString(n: nat): (s: string)
    decreases n
  {
    if n < 10 then [DigitChar(n)] else NatToString(n / 10) + [DigitChar(n % 10)]
  }

  function IntToString(i: int): string {
    if i < 0 then "-" + NatToString(-i) else NatToString(i)
  }

  function NumberToString(x: Number): string {
    match x
    case Num(n) => IntToString(n)
    case NaN => "NaN"
  }

  /** Reading a run of decimal digits back, most significant digit first. */
  function ParseDigits(s: string): int
    decreases |s|
  {
    if s == [] then 0 else 10 * ParseDigits(s[..|s| - 1]) + DigitValue(s[|s| - 1])
  }

  function ParseInt(s: string): int {
    if |s| > 0 && s[0] == '-' then -ParseDigits(s[1..]) else ParseDigits(s)
  }

  lemma {:induction false} NatToStringDigits(n: nat)
    ensures |NatToString(n)| > 0
    ensures forall k :: 0 <= k < |NatToString(n)| ==> IsDigit(NatToString(n)[k])
    ensures ParseDigits(NatToString(n)) == n
    decreases n
  {
    if n >= 10 {
      NatToStringDigits(n / 10);
      var prefix := NatToString(n / 10);
      var s := prefix + [DigitChar(n % 10)];
      assert s[..|s| - 1] == prefix;
    }
  }

  /** The rendering of an integer reads back as that integer. */
  lemma IntToStringRoundTrip(i: int)
    ensures ParseInt(IntToString(i)) == i
  {
    if i < 0 {
      NatToStringDigits(-i);
      var s := "-" + NatToString(-i);
      assert s[1..] == NatToString(-i);
    } else {
      NatToStringDigits(i);
      assert NatToString(i)[0] != '-';
    }
  }

  /** Distinct integers render as distinct strings. */
  lemma IntToStringInjective(a: int, b: int)
    requires a != b
    ensures IntToString(a) != IntToString(b)
  {
    IntToStringRoundTrip(a);
    IntToStringRoundTrip(b);
  }

  /** Appending distinct ids to one prefix gives distinct strings. */
  lemma PrefixedIdsDistinct(prefix: string, a: int, b: int)
    requires a != b
    ensures prefix + IntToString(a) != prefix + IntToString(b)
  {
    IntToStringInjective(a, b);
    assert (prefix + IntToString(a))[|prefix|..] == IntToString(a);
    assert (prefix + IntToString(b))[|prefix|..] == IntToString(b);
  }

  // ---------------------------------------------------------------------
  // `s.includes(t)`

  ghost predicate OccursAt(s: string, t: string, i: int) {
    0 <= i && i + |t| <= |s| && s[i..i + |t|] == t
  }

  function Includes(s: string, t: string): (r: bool)
    ensures r <==> exists i :: OccursAt(s, t, i)
    decreases |s|
  {
    if |t| <= |s| && s[..|t|] == t then
      assert OccursAt(s, t, 0);
      true
    else if s == [] then
      assert forall i :: !OccursAt(s, t, i);
      false
    else
      var rest := Includes(s[1..], t);
      assert forall i :: OccursAt(s[1..], t, i) <==> OccursAt(s, t, i + 1) by {
        forall i ensures OccursAt(s[1..], t, i) <==> OccursAt(s, t, i + 1) {
          if 0 <= i && i + |t| <= |s| - 1 {
            assert s[1..][i..i + |t|] == s[i + 1..i + 1 + |t|];
          }
        }
      }
      assert forall i :: OccursAt(s, t, i) ==> i == 0 || OccursAt(s[1..], t, i - 1);
      rest
  }

  lemma IncludesInPrefix(p: string, rest: string, t: string)
    requires Includes(p, t)
    ensures Includes(p + rest, t)
  {
    var i :| OccursAt(p, t, i);
    assert (p + rest)[i..i + |t|] == p[i..i + |t|];
    assert OccursAt(p + rest, t, i);
  }

  lemma IncludesInSuffix(p: string, rest: string, t: string)
    requires Includes(rest, t)
    ensures Includes(p + rest, t)
  {
    var i :| OccursAt(rest, t, i);
    assert (p + rest)[|p| + i..|p| + i + |t|] == rest[i..i + |t|];
    assert OccursAt(p + rest, t, |p| + i);
  }

  // ---------------------------------------------------------------------
  // `s.trim()`: white space and line terminators as ECMAScript defines them.

  predicate IsJsSpace(c: char) {
    c == '\U{0009}' || c == '\U{000A}' || c == '\U{000B}' || c == '\U{000C}' || c == '\U{000D}' ||
    c == ' ' || c == '\U{00A0}' || c == '\U{1680}' || ('\U{2000}' <= c <= '\U{200A}') ||
    c == '\U{2028}' || c == '\U{2029}' || c == '\U{202F}' || c == '\U{205F}' || c == '\U{3000}' ||
    c == '\U{FEFF}'
  }

  function TrimStart(s: string): string
    decreases |s|
  {
    if s != [] && IsJsSpace(s[0]) then TrimStart(s[1..]) else s
  }

  function TrimEnd(s: string): string
    decreases |s|
  {
    if s != [] && IsJsSpace(s[|s| - 1]) then TrimEnd(s[..|s| - 1]) else s
  }

  function Trim(s: string): string {
    TrimEnd(TrimStart(s))
  }

  ghost predicate HasNonSpace(s: string) {
    exists k :: 0 <= k < |s| && !IsJsSpace(s[k])
  }

  lemma {:induction false} TrimStartKeepsNonSpace(s: string)
    ensures HasNonSpace(s) <==> HasNonSpace(TrimStart(s))
    ensures TrimStart(s) != [] ==> !IsJsSpace(TrimStart(s)[0])
    decreases |s|
  {
    if s != [] && IsJsSpace(s[0]) {
      TrimStartKeepsNonSpace(s[1..]);
      if HasNonSpace(s) {
        var k :| 0 <= k < |s| && !IsJsSpace(s[k]);
        assert s[1..][k - 1] == s[k];
      }
      if HasNonSpace(s[1..]) {
        var k :| 0 <= k < |s[1..]| && !IsJsSpace(s[1..][k]);
        assert s[k + 1] == s[1..][k];
      }
    }
  }

  lemma {:induction false} TrimEndEmpty(s: string)
    requires s == [] || !IsJsSpace(s[0])
    ensures TrimEnd(s) == [] <==> s == []
    decreases |s|
  {
    if s != [] && IsJsSpace(s[|s| - 1]) {
      assert |s| > 1;
      TrimEndEmpty(s[..|s| - 1]);
    }
  }

  /** The trimmed string is non-empty exactly when some character is not white space. */
  lemma TrimNonEmpty(s: string)
    ensures |Trim(s)| > 0 <==> HasNonSpace(s)
  {
    TrimStartKeepsNonSpace(s);
    var t := TrimStart(s);
    TrimEndEmpty(t);
    if t != [] {
      assert !IsJsSpace(t[0]);
    }
  }

  // ---------------------------------------------------------------------
  // `s.length`: JavaScript strings count UTF-16 code units, so a character
  // outside the Basic Multilingual Plane counts twice.

  predicate IsAstral(c: char) {
    c as int > 0xFFFF
  }

  function Utf16Length(s: string): (n: nat)
    ensures |s| <= n <= 2 * |s|
    ensures n == 0 <==> s == []
    decreases |s|
  {
    if s == [] then 0
    else Utf16Length(s[..|s| - 1]) + (if IsAstral(s[|s| - 1]) then 2 else 1)
  }

  /** A text of the same length counted either way has no character outside the Basic Multilingual Plane, and conversely. */
  lemma {:induction false} Utf16LengthIsCount(s: string)
    ensures Utf16Length(s) == |s| <==> forall k :: 0 <= k < |s| ==> !IsAstral(s[k])
    decreases |s|
  {
    if s != [] {
      var p := s[..|s| - 1];
      Utf16LengthIsCount(p);
      assert forall k :: 0 <= k < |p| ==> p[k] == s[k];
    }
  }

  /** Lengths add up over concatenation. */
  lemma {:induction false} Utf16LengthAppend(a: string, b: string)
    ensures Utf16Length(a + b) == Utf16Length(a) + Utf16Length(b)
    decreases |b|
  {
    if b != [] {
      var b' := b[..|b| - 1];
      assert (a + b)[..|a + b| - 1] == a + b';
      Utf16LengthAppend(a, b');
    } else {
      assert a + b == a;
    }
  }

  // ---------------------------------------------------------------------
  // `s.toLowerCase()` on the ASCII range.

  function LowerChar(c: char): (d: char)
    ensures !('A' <= d <= 'Z')
    ensures !('A' <= c <= 'Z') ==> d == c
  {
    if 'A' <= c <= 'Z' then (c as int + 32) as char else c
  }

  function ToLowerCase(s: string): (r: string)
    ensures |r| == |s|
    ensures forall k :: 0 <= k < |s| ==> r[k] == LowerChar(s[k])
  {
    seq(|s|, k requires 0 <= k < |s| => LowerChar(s[k]))
  }

  lemma ToLowerCaseIdempotent(s: string)
    ensures ToLowerCase(ToLowerCase(s)) == ToLowerCase(s)
  {
  }
}
