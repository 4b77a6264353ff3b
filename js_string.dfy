/**
 * The JavaScript string operations the application relies on, with the
 * semantics of the ECMAScript built-ins: `trim`, `split` on one character,
 * `join`, `includes`, `toLowerCase` (ASCII letters), `String(n)` for integers
 * and `length` counted in UTF-16 code units.
 */
module JsString {
  import opened Wrappers

  /** The characters `String.prototype.trim` removes and `\s` matches: WhiteSpace and LineTerminator. */
  predicate IsWhitespace(c: char)
  {
    c == '\t' || c == '\n' || c == '\U{000B}' || c == '\U{000C}' || c == '\r' || c == ' '
    || c == '\U{00A0}' || c == '\U{1680}' || ('\U{2000}' <= c <= '\U{200A}')
    || c == '\U{2028}' || c == '\U{2029}' || c == '\U{202F}' || c == '\U{205F}'
    || c == '\U{3000}' || c == '\U{FEFF}'
  }

  /** The characters a regular-expression `.` does not match. */
  predicate IsLineTerminator(c: char)
  {
    c == '\n' || c == '\r' || c == '\U{2028}' || c == '\U{2029}'
  }

  /** Neither end of `s` is whitespace. */
  predicate IsTrimmed(s: string)
  {
    s == [] || (!IsWhitespace(s[0]) && !IsWhitespace(s[|s| - 1]))
  }

  predicate AllWhitespace(s: string)
  {
    forall i :: 0 <= i < |s| ==> IsWhitespace(s[i])
  }

  /** Drops the leading whitespace. */
  function TrimStart(s: string): (r: string)
    ensures |r| <= |s|
    decreases |s|
  {
    if s != [] && IsWhitespace(s[0]) then TrimStart(s[1..]) else s
  }

  /** The result of `TrimStart` is the suffix of `s` that starts at its first non-whitespace character. */
  lemma {:induction false} TrimStartSuffix(s: string)
    ensures var r := TrimStart(s);
      r == s[|s| - |r|..] && AllWhitespace(s[..|s| - |r|]) && (r != [] ==> !IsWhitespace(r[0]))
    decreases |s|
  {
    if s != [] && IsWhitespace(s[0]) {
      var t := s[1..];
      var r := TrimStart(t);
      TrimStartSuffix(t);
      var k := |s| - |r|;
      assert t[k - 1..] == s[k..];
      forall i | 0 <= i < k ensures IsWhitespace(s[..k][i]) {
        if i > 0 {
          assert s[..k][i] == t[..k - 1][i - 1];
        }
      }
    }
  }

  /** Drops the trailing whitespace. */
  function TrimEnd(s: string): (r: string)
    ensures |r| <= |s|
    decreases |s|
  {
    if s != [] && IsWhitespace(s[|s| - 1]) then TrimEnd(s[..|s| - 1]) else s
  }

  /** The result of `TrimEnd` is the prefix of `s` that ends at its last non-whitespace character. */
  lemma {:induction false} TrimEndPrefix(s: string)
    ensures var r := TrimEnd(s);
      r == s[..|r|] && AllWhitespace(s[|r|..]) && (r != [] ==> !IsWhitespace(r[|r| - 1]))
    decreases |s|
  {
    if s != [] && IsWhitespace(s[|s| - 1]) {
      var p := s[..|s| - 1];
      var r := TrimEnd(p);
      TrimEndPrefix(p);
      assert p[..|r|] == s[..|r|];
      assert s[|r|..] == p[|r|..] + [s[|s| - 1]];
    }
  }

  /** `s.trim()`. */
  function Trim(s: string): (r: string)
    ensures IsTrimmed(r)
    ensures |r| <= |s|
    ensures r == [] <==> AllWhitespace(s)
    ensures IsTrimmed(s) ==> r == s
  {
    var t := TrimStart(s);
    var r := TrimEnd(t);
    TrimStartSuffix(s);
    TrimEndPrefix(t);
    assert r != [] ==> r[0] == t[0];
    assert r == [] ==> AllWhitespace(s) by {
      if r == [] {
        assert t[|r|..] == t;
        assert s[..|s| - |t|] + t == s;
      }
    }
    r
  }

  /** Trimming only removes characters: every character of the result is one of `s`. */
  lemma TrimKeepsChars(s: string)
    ensures forall c :: c in Trim(s) ==> c in s
  {
    var t := TrimStart(s);
    TrimStartSuffix(s);
    TrimEndPrefix(t);
    assert forall c :: c in Trim(s) ==> c in t;
  }

  /** A string made only of whitespace (or empty): by `Trim`'s contract, exactly what `!s.trim()` rejects. */
  predicate IsBlank(s: string)
  {
    AllWhitespace(s)
  }

  lemma {:induction false} TrimIdempotent(s: string)
    ensures Trim(Trim(s)) == Trim(s)
  {
  }

  /** One leading space makes no difference to the trimmed text. */
  lemma TrimAfterSpace(s: string)
    ensures Trim([' '] + s) == Trim(s)
  {
    assert ([' '] + s)[1..] == s;
  }

  /** `parts.map(p => p.trim())`. */
  function TrimAll(parts: seq<string>): (r: seq<string>)
    ensures |r| == |parts|
    ensures forall i :: 0 <= i < |parts| ==> r[i] == Trim(parts[i])
  {
    if parts == [] then [] else [Trim(parts[0])] + TrimAll(parts[1..])
  }

  /** Trimming pieces that are already trimmed changes nothing. */
  lemma TrimAllTrimmed(parts: seq<string>)
    requires forall i :: 0 <= i < |parts| ==> IsTrimmed(parts[i])
    ensures TrimAll(parts) == parts
  {
  }

  /** `s.split(sep)` for a one-character separator: never empty, and no piece contains the separator. */
  function Split(s: string, sep: char): (parts: seq<string>)
    ensures |parts| >= 1
    ensures forall i :: 0 <= i < |parts| ==> sep !in parts[i]
    decreases |s|
  {
    if s == [] then [[]]
    else
      var rest := Split(s[1..], sep);
      if s[0] == sep then [[]] + rest
      else [[s[0]] + rest[0]] + rest[1..]
  }

  /** `parts.join(sep)`. */
  function Join(parts: seq<string>, sep: string): string
  {
    if |parts| == 0 then []
    else if |parts| == 1 then parts[0]
    else parts[0] + sep + Join(parts[1..], sep)
  }

  /** Splitting and joining back with the same separator gives the original text. */
  lemma {:induction false} JoinSplit(s: string, sep: char)
    ensures Join(Split(s, sep), [sep]) == s
    decreases |s|
  {
    if s != [] {
      var rest := Split(s[1..], sep);
      JoinSplit(s[1..], sep);
      if s[0] == sep {
        assert Split(s, sep)[1..] == rest;
      } else if |rest| > 1 {
        var parts := Split(s, sep);
        assert parts[1..] == rest[1..];
        assert Join(rest, [sep]) == rest[0] + [sep] + Join(rest[1..], [sep]);
      }
    }
  }

  /** A text without the separator splits into itself. */
  lemma {:induction false} SplitWithoutSeparator(s: string, sep: char)
    requires sep !in s
    ensures Split(s, sep) == [s]
    decreases |s|
  {
    if s != [] {
      SplitWithoutSeparator(s[1..], sep);
      assert [s[0]] + s[1..] == s;
    }
  }

  /** The first separator ends the first piece. */
  lemma {:induction false} SplitAtSeparator(a: string, sep: char, b: string)
    requires sep !in a
    ensures Split(a + [sep] + b, sep) == [a] + Split(b, sep)
    decreases |a|
  {
    var s := a + [sep] + b;
    if a == [] {
      assert s[1..] == b;
    } else {
      assert s[0] == a[0] && s[1..] == a[1..] + [sep] + b;
      SplitAtSeparator(a[1..], sep, b);
      assert [a[0]] + a[1..] == a;
    }
  }

  /** Joining pieces that do not contain the separator and splitting again gives the pieces back. */
  lemma {:induction false} SplitJoin(parts: seq<string>, sep: char)
    requires |parts| >= 1
    requires forall i :: 0 <= i < |parts| ==> sep !in parts[i]
    ensures Split(Join(parts, [sep]), sep) == parts
    decreases |parts|
  {
    if |parts| == 1 {
      SplitWithoutSeparator(parts[0], sep);
    } else {
      SplitJoin(parts[1..], sep);
      SplitAtSeparator(parts[0], sep, Join(parts[1..], [sep]));
    }
  }

  /**
   * Joining with `", "` and splitting on `','` leaves a space in front of every
   * piece but the first; trimming removes it again, so trimmed comma-free
   * pieces come back unchanged.
   */
  lemma {:induction false} SplitCommaSpaceJoin(parts: seq<string>)
    requires |parts| >= 1
    requires forall i :: 0 <= i < |parts| ==> ',' !in parts[i]
    ensures TrimAll(Split(Join(parts, ", "), ',')) == TrimAll(parts)
    decreases |parts|
  {
    if |parts| == 1 {
      SplitWithoutSeparator(parts[0], ',');
    } else {
      var r := Split(Join(parts[1..], ", "), ',');
      SplitCommaSpaceJoin(parts[1..]);
      SplitAtCommaSpace(parts);
      TrimAllAfterComma(parts[0], r);
      calc {
        TrimAll(Split(Join(parts, ", "), ','));
        TrimAll([parts[0]] + ([[' '] + r[0]] + r[1..]));
        [Trim(parts[0])] + TrimAll(r);
        [Trim(parts[0])] + TrimAll(parts[1..]);
        TrimAll(parts);
      }
    }
  }

  /** The first piece of a `", "`-joined text is the first part; every later piece carries a leading space. */
  lemma SplitAtCommaSpace(parts: seq<string>)
    requires |parts| >= 2
    requires ',' !in parts[0]
    ensures var r := Split(Join(parts[1..], ", "), ',');
      Split(Join(parts, ", "), ',') == [parts[0]] + ([[' '] + r[0]] + r[1..])
  {
    var tail := Join(parts[1..], ", ");
    var b := [' '] + tail;
    JoinCommaSpace(parts);
    SplitAtSeparator(parts[0], ',', b);
    SplitAfterOther(' ', tail, ',');
  }

  /** A `", "`-joined text is the first part, a comma, then a space and the join of the rest. */
  lemma JoinCommaSpace(parts: seq<string>)
    requires |parts| >= 2
    ensures Join(parts, ", ") == parts[0] + [','] + ([' '] + Join(parts[1..], ", "))
  {
    var tail := Join(parts[1..], ", ");
    assert Join(parts, ", ") == parts[0] + ", " + tail;
    assert ", " == [','] + [' '];
  }

  lemma TrimAllAfterComma(first: string, r: seq<string>)
    requires |r| >= 1
    ensures TrimAll([first] + ([[' '] + r[0]] + r[1..])) == [Trim(first)] + TrimAll(r)
  {
    var tail := [[' '] + r[0]] + r[1..];
    assert ([first] + tail)[1..] == tail;
    assert tail[1..] == r[1..];
    TrimAfterSpace(r[0]);
    assert TrimAll(tail) == [Trim(r[0])] + TrimAll(r[1..]);
  }

  /** A first character other than the separator joins the first piece. */
  lemma SplitAfterOther(c: char, s: string, sep: char)
    requires c != sep
    ensures Split([c] + s, sep) == [[c] + Split(s, sep)[0]] + Split(s, sep)[1..]
  {
    assert ([c] + s)[1..] == s;
  }

  /** `s.includes(sub)`. */
  predicate Contains(s: string, sub: string)
    decreases |s|
  {
    sub <= s || (s != [] && Contains(s[1..], sub))
  }

  lemma {:induction false} ContainsConcat(a: string, b: string, sub: string)
    requires Contains(b, sub)
    ensures Contains(a + b, sub)
    decreases |a|
  {
    if a == [] {
      assert a + b == b;
    } else {
      assert (a + b)[1..] == a[1..] + b;
      ContainsConcat(a[1..], b, sub);
    }
  }

  /** A string contains every one of its own substrings. */
  lemma {:induction false} ContainsSlice(s: string, i: nat, j: nat)
    requires i <= j <= |s|
    ensures Contains(s, s[i..j])
  {
    assert s == s[..i] + s[i..];
    ContainsConcat(s[..i], s[i..], s[i..j]);
  }

  function LowerAscii(c: char): (r: char)
    ensures !('A' <= r <= 'Z')
    ensures 'A' <= c <= 'Z' ==> r as int == c as int + 32
    ensures !('A' <= c <= 'Z') ==> r == c
  {
    if 'A' <= c <= 'Z' then (c as int + 32) as char else c
  }

  /** `s.toLowerCase()` restricted to ASCII letters. */
  function ToLowerAscii(s: string): (r: string)
    ensures |r| == |s|
    ensures forall i :: 0 <= i < |s| ==> r[i] == LowerAscii(s[i])
  {
    seq(|s|, i requires 0 <= i < |s| => LowerAscii(s[i]))
  }

  lemma ToLowerAsciiIdempotent(s: string)
    ensures ToLowerAscii(ToLowerAscii(s)) == ToLowerAscii(s)
  {
  }

  /** `s.length`: code points outside the Basic Multilingual Plane count as two UTF-16 units. */
  function Utf16Length(s: string): (n: nat)
    ensures |s| <= n <= 2 * |s|
    ensures (forall i :: 0 <= i < |s| ==> s[i] as int <= 0xFFFF) ==> n == |s|
  {
    if s == [] then 0 else (if s[0] as int > 0xFFFF then 2 else 1) + Utf16Length(s[1..])
  }

  predicate IsDigit(c: char)
  {
    '0' <= c <= '9'
  }

  function DigitChar(d: nat): (c: char)
    requires d < 10
    ensures IsDigit(c) && c as int - '0' as int == d
  {
    ('0' as int + d) as char
  }

  /** Decimal digits of a natural number, most significant first, without leading zeros. */
  function NatString(n: nat): (r: string)
    ensures |r| >= 1
    ensures forall i :: 0 <= i < |r| ==> IsDigit(r[i])
    ensures r[0] == '0' ==> r == "0"
  {
    if n < 10 then [DigitChar(n)] else NatString(n / 10) + [DigitChar(n % 10)]
  }

  /** `String(n)` for an integer `n`. */
  function DecimalString(n: int): (r: string)
    ensures |r| >= 1
    ensures n >= 0 ==> r == NatString(n)
    ensures n < 0 ==> r == "-" + NatString(-n)
  {
    if n < 0 then "-" + NatString(-n) else NatString(n)
  }

  /** The value of a string of decimal digits. */
  function DigitsValue(s: string): nat
    requires forall i :: 0 <= i < |s| ==> IsDigit(s[i])
  {
    if s == [] then 0
    else
      assert IsDigit(s[|s| - 1]);
      DigitsValue(s[..|s| - 1]) * 10 + (s[|s| - 1] as int - '0' as int)
  }

  /** Reading the printed digits back gives the number: `String` on naturals is injective. */
  lemma {:induction false} NatStringRoundTrip(n: nat)
    ensures DigitsValue(NatString(n)) == n
  {
    if n >= 10 {
      var s := NatString(n);
      NatStringRoundTrip(n / 10);
      assert s[..|s| - 1] == NatString(n / 10);
    }
  }

  lemma DecimalStringInjective(m: int, n: int)
    requires DecimalString(m) == DecimalString(n)
    ensures m == n
  {
    if m >= 0 && n >= 0 {
      NatStringRoundTrip(m);
      NatStringRoundTrip(n);
    } else if m < 0 && n < 0 {
      assert NatString(-m) == DecimalString(m)[1..];
      assert NatString(-n) == DecimalString(n)[1..];
      NatStringRoundTrip(-m);
      NatStringRoundTrip(-n);
    }
  }

  predicate AllDigits(s: string)
  {
    forall i :: 0 <= i < |s| ==> IsDigit(s[i])
  }

  /**
   * `Number(s)` for integer text: surrounding whitespace is ignored, the
   * empty text is 0, an optional minus sign may precede the digits; any
   * other text is `NaN` (`None`).
   */
  function NumberOf(s: string): (r: Option<int>)
    ensures AllDigits(Trim(s)) ==> r == Some(DigitsValue(Trim(s)))
  {
    var t := Trim(s);
    if AllDigits(t) then Some(DigitsValue(t))
    else if |t| >= 2 && t[0] == '-' && AllDigits(t[1..]) then Some(-(DigitsValue(t[1..]) as int))
    else None
  }

  /** `Number(String(n)) === n` for every integer `n`. */
  lemma NumberOfDecimalString(n: int)
    ensures NumberOf(DecimalString(n)) == Some(n)
  {
    var s := DecimalString(n);
    assert IsTrimmed(s) by {
      assert !IsWhitespace(s[0]) && !IsWhitespace(s[|s| - 1]);
    }
    if n >= 0 {
      NatStringRoundTrip(n);
    } else {
      assert s[1..] == NatString(-n);
      assert !AllDigits(s) by { assert !IsDigit(s[0]); }
      NatStringRoundTrip(-n);
    }
  }
}
