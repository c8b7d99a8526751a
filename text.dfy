/** String built-ins of JavaScript and Python that the client and the agent
    rely on: `trim`/`strip`, ASCII `lower`/`upper`, `isdigit`, substring
    search, `"\n".join(...)` and the decimal rendering of a number. */
module Text {

  // ---------------------------------------------------------------------------
  // Whitespace sets
  // ---------------------------------------------------------------------------

  /** The code points ECMAScript's `String.prototype.trim` removes: the
      WhiteSpace production (TAB, VT, FF, SP, NBSP, ZWNBSP and every other
      space separator) and the LineTerminator production (LF, CR, LS, PS). */
  predicate IsJsWhitespace(c: char) {
    c == '\t' || c == '\n' || c == '\U{B}' || c == '\U{C}' || c == '\r' || c == ' ' ||
    c == '\U{A0}' || c == '\U{1680}' || ('\U{2000}' <= c <= '\U{200A}') ||
    c == '\U{2028}' || c == '\U{2029}' || c == '\U{202F}' || c == '\U{205F}' ||
    c == '\U{3000}' || c == '\U{FEFF}'
  }

  /** The code points for which Python 3's `str.isspace` holds, the set a
      bare `str.strip()` removes. Unlike JavaScript it includes the four
      ASCII information separators and NEL, and excludes ZWNBSP. */
  predicate IsPyWhitespace(c: char) {
    c == '\t' || c == '\n' || c == '\U{B}' || c == '\U{C}' || c == '\r' ||
    ('\U{1C}' <= c <= '\U{1F}') || c == ' ' || c == '\U{85}' || c == '\U{A0}' ||
    c == '\U{1680}' || ('\U{2000}' <= c <= '\U{200A}') || c == '\U{2028}' ||
    c == '\U{2029}' || c == '\U{202F}' || c == '\U{205F}' || c == '\U{3000}'
  }

  // ---------------------------------------------------------------------------
  // Trimming
  // ---------------------------------------------------------------------------

  function TrimStart(s: string, ws: char -> bool): string {
    if s != [] && ws(s[0]) then TrimStart(s[1..], ws) else s
  }

  function TrimEnd(s: string, ws: char -> bool): string {
    if s != [] && ws(s[|s| - 1]) then TrimEnd(s[..|s| - 1], ws) else s
  }

  /** Removes the leading and trailing characters that satisfy `ws`. */
  function Strip(s: string, ws: char -> bool): string {
    TrimEnd(TrimStart(s, ws), ws)
  }

  /** JavaScript `s.trim()`. */
  function JsTrim(s: string): string {
    Strip(s, IsJsWhitespace)
  }

  /** Python `s.strip()`. */
  function PyStrip(s: string): string {
    Strip(s, IsPyWhitespace)
  }

  /** Every character of `s` satisfies `ws`. */
  predicate AllWhere(s: string, ws: char -> bool) {
    forall i :: 0 <= i < |s| ==> ws(s[i])
  }

  /** TrimStart drops exactly a maximal run of leading `ws` characters. */
  lemma {:induction false} TrimStartSpec(s: string, ws: char -> bool)
    ensures |TrimStart(s, ws)| <= |s|
    ensures TrimStart(s, ws) == s[|s| - |TrimStart(s, ws)|..]
    ensures AllWhere(s[..|s| - |TrimStart(s, ws)|], ws)
    ensures TrimStart(s, ws) != [] ==> !ws(TrimStart(s, ws)[0])
  {
    if s != [] && ws(s[0]) {
      TrimStartSpec(s[1..], ws);
      var r := TrimStart(s[1..], ws);
      assert s[1..][..|s| - 1 - |r|] == s[1..|s| - |r|];
      assert s[..|s| - |r|] == [s[0]] + s[1..|s| - |r|];
    }
  }

  /** TrimEnd drops exactly a maximal run of trailing `ws` characters. */
  lemma {:induction false} TrimEndSpec(s: string, ws: char -> bool)
    ensures |TrimEnd(s, ws)| <= |s|
    ensures TrimEnd(s, ws) == s[..|TrimEnd(s, ws)|]
    ensures AllWhere(s[|TrimEnd(s, ws)|..], ws)
    ensures TrimEnd(s, ws) != [] ==> !ws(TrimEnd(s, ws)[|TrimEnd(s, ws)| - 1])
  {
    if s != [] && ws(s[|s| - 1]) {
      var t := s[..|s| - 1];
      TrimEndSpec(t, ws);
      var r := TrimEnd(t, ws);
      assert t[..|r|] == s[..|r|];
      assert s[|r|..] == t[|r|..] + [s[|s| - 1]];
    }
  }

  /** A string strips to the empty string exactly when every character of
      it is whitespace; this is the blank-question test of the client. */
  lemma StripEmptyIff(s: string, ws: char -> bool)
    ensures Strip(s, ws) == [] <==> AllWhere(s, ws)
  {
    TrimStartSpec(s, ws);
    var t := TrimStart(s, ws);
    TrimEndSpec(t, ws);
    if Strip(s, ws) == [] {
      assert t[0..] == t;
      assert t == [];
      assert s[..|s|] == s;
    } else {
      var r := Strip(s, ws);
      assert !ws(r[|r| - 1]);
      assert r[|r| - 1] == t[|r| - 1] == s[|s| - |t| + |r| - 1];
    }
  }

  /** The result of a strip neither begins nor ends with whitespace and
      sits contiguously inside the input. */
  lemma StripShape(s: string, ws: char -> bool)
    ensures var r := Strip(s, ws);
      (r != [] ==> !ws(r[0]) && !ws(r[|r| - 1])) &&
      exists i :: 0 <= i <= |s| - |r| && StartsWith(s[i..], r)
  {
    TrimStartSpec(s, ws);
    var t := TrimStart(s, ws);
    TrimEndSpec(t, ws);
    var r := Strip(s, ws);
    var i := |s| - |t|;
    assert s[i..][..|r|] == t[..|r|];
    assert StartsWith(s[i..], r);
    if r != [] {
      assert r[0] == t[0];
    }
  }

  // ---------------------------------------------------------------------------
  // ASCII case mapping (Python `str.lower`/`str.upper` restricted to ASCII)
  // ---------------------------------------------------------------------------

  predicate IsAsciiUpper(c: char) { 'A' <= c <= 'Z' }
  predicate IsAsciiLower(c: char) { 'a' <= c <= 'z' }
  predicate IsAsciiDigit(c: char) { '0' <= c <= '9' }

  function LowerChar(c: char): (d: char)
    ensures !IsAsciiUpper(d)
    ensures IsAsciiUpper(c) ==> d as int == c as int + 32
    ensures !IsAsciiUpper(c) ==> d == c
  {
    if IsAsciiUpper(c) then (c as int + 32) as char else c
  }

  function UpperChar(c: char): (d: char)
    ensures !IsAsciiLower(d)
    ensures IsAsciiLower(c) ==> d as int == c as int - 32
    ensures !IsAsciiLower(c) ==> d == c
  {
    if IsAsciiLower(c) then (c as int - 32) as char else c
  }

  function Lower(s: string): string {
    if s == [] then [] else [LowerChar(s[0])] + Lower(s[1..])
  }

  function Upper(s: string): string {
    if s == [] then [] else [UpperChar(s[0])] + Upper(s[1..])
  }

  /** Lowercasing maps each character on its own and leaves no ASCII capital. */
  lemma {:induction false} LowerAt(s: string)
    ensures |Lower(s)| == |s|
    ensures forall i :: 0 <= i < |s| ==> Lower(s)[i] == LowerChar(s[i])
  {
    if s != [] {
      LowerAt(s[1..]);
      assert forall i :: 1 <= i < |s| ==> Lower(s)[i] == Lower(s[1..])[i - 1];
    }
  }

  /** Lowercasing twice is lowercasing once. */
  lemma LowerIdempotent(s: string)
    ensures Lower(Lower(s)) == Lower(s)
  {
    LowerAt(s);
    LowerAt(Lower(s));
  }

  // ---------------------------------------------------------------------------
  // Substring search (Python `sub in s`)
  // ---------------------------------------------------------------------------

  predicate StartsWith(s: string, prefix: string) {
    |prefix| <= |s| && s[..|prefix|] == prefix
  }

  /** Python `sub in s`: searched from the front. */
  predicate Contains(s: string, sub: string) {
    StartsWith(s, sub) || (s != [] && Contains(s[1..], sub))
  }

  /** `sub in s` holds exactly when `sub` occurs at some position of `s`. */
  lemma {:induction false} ContainsIff(s: string, sub: string)
    ensures Contains(s, sub) <==> exists i :: 0 <= i <= |s| - |sub| && StartsWith(s[i..], sub)
  {
    if StartsWith(s, sub) {
      assert s[0..] == s;
    } else if s == [] {
    } else {
      ContainsIff(s[1..], sub);
      if Contains(s[1..], sub) {
        var i :| 0 <= i <= |s| - 1 - |sub| && StartsWith(s[1..][i..], sub);
        assert s[1..][i..] == s[i + 1..];
      } else {
        forall i | 0 <= i <= |s| - |sub| ensures !StartsWith(s[i..], sub) {
          if i > 0 {
            assert s[1..][i - 1..] == s[i..];
          } else {
            assert s[0..] == s;
          }
        }
      }
    }
  }

  // ---------------------------------------------------------------------------
  // Digits (Python `str.isdigit` restricted to ASCII, `s.replace(".", "")`)
  // ---------------------------------------------------------------------------

  /** Python `s.isdigit()` on ASCII text: non-empty and every character a digit. */
  predicate IsDigits(s: string) {
    s != [] && forall i :: 0 <= i < |s| ==> IsAsciiDigit(s[i])
  }

  /** Python `s.replace(".", "")`. */
  function RemoveDots(s: string): string {
    if s == [] then []
    else if s[0] == '.' then RemoveDots(s[1..])
    else [s[0]] + RemoveDots(s[1..])
  }

  /** What is left after deleting dots: exactly the non-dot characters,
      so the result is empty iff the input is all dots. */
  lemma {:induction false} RemoveDotsSpec(s: string)
    ensures forall c :: c in RemoveDots(s) <==> c in s && c != '.'
  {
    if s != [] {
      RemoveDotsSpec(s[1..]);
      assert s == [s[0]] + s[1..];
    }
  }

  /** Deleting dots works piece by piece, so the characters left keep
      their order and their number. */
  lemma {:induction false} RemoveDotsConcat(a: string, b: string)
    ensures RemoveDots(a + b) == RemoveDots(a) + RemoveDots(b)
  {
    if a != [] {
      RemoveDotsConcat(a[1..], b);
      assert (a + b)[1..] == a[1..] + b;
    } else {
      assert a + b == b;
    }
  }

  // ---------------------------------------------------------------------------
  // Decimal rendering of a non-negative integer (JavaScript `${n}`)
  // ---------------------------------------------------------------------------

  function DigitChar(d: nat): (c: char)
    requires d < 10
    ensures IsAsciiDigit(c)
  {
    ('0' as int + d) as char
  }

  /** The shortest decimal numeral of `n`, as JavaScript writes an integer. */
  function Decimal(n: nat): (r: string)
    ensures r != []
    ensures forall i :: 0 <= i < |r| ==> IsAsciiDigit(r[i])
    decreases n
  {
    if n < 10 then [DigitChar(n)] else Decimal(n / 10) + [DigitChar(n % 10)]
  }

  function DigitValue(c: char): (d: nat)
    requires IsAsciiDigit(c)
    ensures d < 10
  {
    c as int - '0' as int
  }

  /** The value of a numeral, read left to right. */
  function DigitsValue(s: string): nat
    requires forall i :: 0 <= i < |s| ==> IsAsciiDigit(s[i])
  {
    if s == [] then 0
    else DigitsValue(s[..|s| - 1]) * 10 + DigitValue(s[|s| - 1])
  }

  /** Reading back a rendered number gives the number, and the numeral has
      no leading zero: `Decimal` is the canonical numeral. */
  lemma {:induction false} DecimalRoundTrip(n: nat)
    ensures DigitsValue(Decimal(n)) == n
    ensures Decimal(n)[0] == '0' ==> n == 0
    decreases n
  {
    if n >= 10 {
      DecimalRoundTrip(n / 10);
      var r := Decimal(n);
      assert r[..|r| - 1] == Decimal(n / 10);
    }
  }

  // ---------------------------------------------------------------------------
  // Joining (Python `sep.join(parts)`)
  // ---------------------------------------------------------------------------

  function Join(parts: seq<string>, sep: string): string {
    if parts == [] then ""
    else if |parts| == 1 then parts[0]
    else parts[0] + sep + Join(parts[1..], sep)
  }

  /** Joining one more part appends the separator and that part. */
  lemma {:induction false} JoinAppend(parts: seq<string>, last: string, sep: string)
    ensures Join(parts + [last], sep) ==
      if parts == [] then last else Join(parts, sep) + sep + last
  {
    if |parts| > 1 {
      JoinAppend(parts[1..], last, sep);
      assert (parts + [last])[1..] == parts[1..] + [last];
    } else if |parts| == 1 {
      assert (parts + [last])[1..] == [last];
    }
  }
}
