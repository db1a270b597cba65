/** The few JavaScript string operations the core relies on:
    `String.prototype.trim`, `String.prototype.split` with a one-character
    separator followed by `Array.prototype.pop`, and the decimal rendering a
    template literal gives a non-negative integer. */
module JsText {

  /** ECMAScript WhiteSpace and LineTerminator code points, the set `trim` removes. */
  predicate IsWhiteSpace(c: char) {
    || c == '\t' || c == '\n' || c == '\U{000B}' || c == '\U{000C}' || c == '\r'
    || c == ' ' || c == '\U{00A0}' || c == '\U{1680}'
    || ('\U{2000}' <= c <= '\U{200A}')
    || c == '\U{2028}' || c == '\U{2029}' || c == '\U{202F}' || c == '\U{205F}'
    || c == '\U{3000}' || c == '\U{FEFF}'
  }

  predicate AllWhiteSpace(s: string) {
    forall i :: 0 <= i < |s| ==> IsWhiteSpace(s[i])
  }

  /** The number of white-space characters `s` starts with. */
  function LeadingWhiteSpace(s: string): (n: nat)
    ensures n <= |s|
    ensures forall i :: 0 <= i < n ==> IsWhiteSpace(s[i])
    ensures n < |s| ==> !IsWhiteSpace(s[n])
  {
    if |s| > 0 && IsWhiteSpace(s[0]) then 1 + LeadingWhiteSpace(s[1..]) else 0
  }

  /** The number of white-space characters `s` ends with. */
  function TrailingWhiteSpace(s: string): (n: nat)
    ensures n <= |s|
    ensures forall i :: |s| - n <= i < |s| ==> IsWhiteSpace(s[i])
    ensures n < |s| ==> !IsWhiteSpace(s[|s| - n - 1])
  {
    if |s| > 0 && IsWhiteSpace(s[|s| - 1]) then 1 + TrailingWhiteSpace(s[..|s| - 1]) else 0
  }

  /** `s.trim()`: the infix of `s` that starts after its leading white space
      and stops before its trailing white space; it is empty exactly when `s`
      is all white space. */
  function Trim(s: string): (r: string)
    ensures var k := LeadingWhiteSpace(s);
      && k + |r| <= |s| && r == s[k..k + |r|]
      && (forall i :: 0 <= i < k ==> IsWhiteSpace(s[i]))
      && (forall i :: k + |r| <= i < |s| ==> IsWhiteSpace(s[i]))
    ensures |r| > 0 ==> !IsWhiteSpace(r[0]) && !IsWhiteSpace(r[|r| - 1])
    ensures |r| == 0 <==> AllWhiteSpace(s)
  {
    var start := LeadingWhiteSpace(s);
    if start == |s| then ""
    else
      var stop := |s| - TrailingWhiteSpace(s);
      assert start < stop;
      assert !AllWhiteSpace(s) by {
        assert !IsWhiteSpace(s[start]);
      }
      s[start..stop]
  }

  /** A character outside the Basic Multilingual Plane, which UTF-16 stores
      as a surrogate pair. */
  predicate IsAstral(c: char) {
    c as int > 0xFFFF
  }

  /** `s.length`: the number of UTF-16 code units, two for each astral
      character and one for every other. */
  function Utf16Length(s: string): (n: nat)
    ensures |s| <= n <= 2 * |s|
  {
    if |s| == 0 then 0
    else (if IsAstral(s[0]) then 2 else 1) + Utf16Length(s[1..])
  }

  /** The UTF-16 length is the number of characters exactly when no character
      is astral. */
  lemma {:induction false} Utf16LengthWithoutAstral(s: string)
    ensures Utf16Length(s) == |s| <==> forall i :: 0 <= i < |s| ==> !IsAstral(s[i])
    decreases |s|
  {
    if |s| > 0 {
      Utf16LengthWithoutAstral(s[1..]);
      assert forall i :: 1 <= i < |s| ==> s[i] == s[1..][i - 1];
    }
  }

  /** The length of a concatenation is the sum of the lengths. */
  lemma {:induction false} Utf16LengthAppend(a: string, b: string)
    ensures Utf16Length(a + b) == Utf16Length(a) + Utf16Length(b)
    decreases |a|
  {
    if |a| == 0 {
      assert a + b == b;
    } else {
      assert (a + b)[1..] == a[1..] + b;
      Utf16LengthAppend(a[1..], b);
    }
  }

  /** One astral character is two code units; one BMP character is one. */
  lemma Utf16LengthOfOneCharacter(c: char)
    ensures Utf16Length([c]) == if IsAstral(c) then 2 else 1
  {
    assert [c][1..] == [];
  }

  /** `s.split(sep)` for a one-character separator: the pieces between the
      occurrences of `sep`, of which there is always at least one. */
  function Split(s: string, sep: char): (parts: seq<string>)
    ensures |parts| >= 1
    ensures forall i :: 0 <= i < |parts| ==> sep !in parts[i]
  {
    if |s| == 0 then [""]
    else
      var rest := Split(s[1..], sep);
      if s[0] == sep then [""] + rest
      else [[s[0]] + rest[0]] + rest[1..]
  }

  /** `parts.join(sep)`. */
  function Join(parts: seq<string>, sep: char): string
    requires |parts| >= 1
  {
    if |parts| == 1 then parts[0] else parts[0] + [sep] + Join(parts[1..], sep)
  }

  /** Joining the pieces of a split gives back the original string. */
  lemma {:induction false} JoinSplit(s: string, sep: char)
    ensures Join(Split(s, sep), sep) == s
  {
    if |s| > 0 {
      var rest := Split(s[1..], sep);
      JoinSplit(s[1..], sep);
      if s[0] == sep {
        assert Split(s, sep)[1..] == rest;
      } else {
        var parts := Split(s, sep);
        if |rest| > 1 {
          assert parts[1..] == rest[1..];
          assert Join(rest, sep) == rest[0] + [sep] + Join(rest[1..], sep);
          assert Join(parts, sep) == [s[0]] + rest[0] + [sep] + Join(rest[1..], sep);
        }
        assert s == [s[0]] + s[1..];
      }
    }
  }

  /** Splitting a string that does not contain the separator gives that string alone. */
  lemma {:induction false} SplitWithoutSeparator(s: string, sep: char)
    requires sep !in s
    ensures Split(s, sep) == [s]
  {
    if |s| > 0 {
      assert sep !in s[1..];
      SplitWithoutSeparator(s[1..], sep);
      assert [s[0]] + s[1..] == s;
    }
  }

  /** Splitting `a + [sep] + b`, where `a` has no separator, yields `a` followed by the pieces of `b`. */
  lemma {:induction false} SplitAfterPiece(a: string, b: string, sep: char)
    requires sep !in a
    ensures Split(a + [sep] + b, sep) == [a] + Split(b, sep)
  {
    if |a| == 0 {
      assert a + [sep] + b == [sep] + b;
      assert ([sep] + b)[1..] == b;
    } else {
      var s := a + [sep] + b;
      assert s[1..] == a[1..] + [sep] + b;
      assert sep !in a[1..];
      SplitAfterPiece(a[1..], b, sep);
      assert [a[0]] + a[1..] == a;
    }
  }

  /** Splitting the join of separator-free pieces gives back those pieces. */
  lemma {:induction false} SplitJoin(parts: seq<string>, sep: char)
    requires |parts| >= 1
    requires forall i :: 0 <= i < |parts| ==> sep !in parts[i]
    ensures Split(Join(parts, sep), sep) == parts
  {
    if |parts| == 1 {
      SplitWithoutSeparator(parts[0], sep);
    } else {
      SplitJoin(parts[1..], sep);
      SplitAfterPiece(parts[0], Join(parts[1..], sep), sep);
      assert [parts[0]] + parts[1..] == parts;
    }
  }

  /** `s.split(sep).pop()`: the last piece of a split. */
  function LastPiece(s: string, sep: char): string {
    var parts := Split(s, sep);
    parts[|parts| - 1]
  }

  /** The last piece of a split is the text after the last separator, or the
      whole string when there is no separator. */
  lemma {:induction false} LastPieceIsTextAfterLastSeparator(s: string, sep: char)
    ensures var r := LastPiece(s, sep);
      && sep !in r
      && |r| <= |s| && r == s[|s| - |r|..]
      && (|r| == |s| <==> sep !in s)
      && (|r| < |s| ==> s[|s| - |r| - 1] == sep)
      && (|Split(s, sep)| == 1 <==> sep !in s)
  {
    var r := LastPiece(s, sep);
    if |s| > 0 {
      var rest := Split(s[1..], sep);
      var rr := LastPiece(s[1..], sep);
      LastPieceIsTextAfterLastSeparator(s[1..], sep);
      if s[0] == sep {
        assert r == rr;
        assert sep in s;
      } else if |rest| > 1 {
        assert r == rr;
        assert sep in s[1..];
        assert s[1..] == s[1..][..];
      } else {
        assert rr == s[1..];
        assert r == s;
        assert s == [s[0]] + s[1..];
      }
    }
  }

  /** The last piece of `a + [sep] + e`, where `e` has no separator, is `e`. */
  lemma LastPieceAfterSeparator(a: string, e: string, sep: char)
    requires sep !in e
    ensures LastPiece(a + [sep] + e, sep) == e
  {
    var s := a + [sep] + e;
    var r := LastPiece(s, sep);
    LastPieceIsTextAfterLastSeparator(s, sep);
    assert s[|s| - |e| - 1] == sep;
    assert s[|s| - |e|..] == e;
  }

  function DigitChar(d: nat): char
    requires d < 10
  {
    "0123456789"[d]
  }

  function DigitValue(c: char): nat {
    if '0' <= c <= '9' then (c - '0') as nat else 0
  }

  predicate IsDigits(s: string) {
    forall i :: 0 <= i < |s| ==> '0' <= s[i] <= '9'
  }

  /** The decimal digits of `n`, as a template literal renders an integral number. */
  function Decimal(n: nat): (r: string)
    ensures |r| >= 1 && IsDigits(r)
  {
    if n < 10 then [DigitChar(n)] else Decimal(n / 10) + [DigitChar(n % 10)]
  }

  /** Reads a string of decimal digits back as a number. */
  function ParseDecimal(s: string): nat {
    if |s| == 0 then 0 else 10 * ParseDecimal(s[..|s| - 1]) + DigitValue(s[|s| - 1])
  }

  /** Rendering a number in decimal loses nothing. */
  lemma {:induction false} ParseDecimalOfDecimal(n: nat)
    ensures ParseDecimal(Decimal(n)) == n
  {
    if n >= 10 {
      var s := Decimal(n);
      assert s[..|s| - 1] == Decimal(n / 10);
      ParseDecimalOfDecimal(n / 10);
    }
  }
}
