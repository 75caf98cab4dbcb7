/**
  The string handling `OBJLoader::load` (src/obj_loader.cpp) relies on:
  reading whitespace-separated words with `istringstream >> string`,
  splitting a face corner on '/' with `getline(stream, s, '/')`, and turning
  a piece into an `int` with `std::stoi` (base 10, 32-bit `int`).
 */
module ObjText {

  /** The characters `isspace` accepts in the "C" locale. */
  predicate IsSpace(c: char)
  {
    c == ' ' || c == '\t' || c == '\n' || c == '\U{000B}' || c == '\U{000C}' || c == '\r'
  }

  predicate NoSpace(w: string)
  {
    forall i :: 0 <= i < |w| ==> !IsSpace(w[i])
  }

  /** The word at the start of `s`: the characters up to the first
      whitespace or the end. */
  function Word(s: string): (w: string)
    ensures w <= s && NoSpace(w)
    ensures |w| < |s| ==> IsSpace(s[|w|])
  {
    if |s| == 0 || IsSpace(s[0]) then [] else [s[0]] + Word(s[1..])
  }

  /** The words successive `>>` extractions into a `std::string` yield:
      leading whitespace is skipped, then a word is read. */
  function Tokens(s: string): seq<string>
    decreases |s|
  {
    if |s| == 0 then []
    else if IsSpace(s[0]) then Tokens(s[1..])
    else
      var w := Word(s);
      [w] + Tokens(s[|w|..])
  }

  /** What the `i`-th extraction leaves in a fresh string: the `i`-th word,
      or nothing once the line has run out. */
  function TokenAt(ts: seq<string>, i: nat): string
  {
    if i < |ts| then ts[i] else ""
  }

  /** Words separated by single spaces. */
  function Unwords(ws: seq<string>): string
  {
    if |ws| == 0 then "" else if |ws| == 1 then ws[0] else ws[0] + " " + Unwords(ws[1..])
  }

  /** Every extracted word is non-empty and without whitespace. */
  lemma {:induction false} TokensAreWords(s: string)
    ensures forall i :: 0 <= i < |Tokens(s)| ==> |Tokens(s)[i]| > 0 && NoSpace(Tokens(s)[i])
    decreases |s|
  {
    if |s| > 0 {
      if IsSpace(s[0]) {
        TokensAreWords(s[1..]);
      } else {
        var w := Word(s);
        TokensAreWords(s[|w|..]);
      }
    }
  }

  /** Reading the word off a word followed by whitespace or nothing. */
  lemma {:induction false} WordOf(w: string, rest: string)
    requires NoSpace(w) && (|rest| == 0 || IsSpace(rest[0]))
    ensures Word(w + rest) == w
  {
    if |w| > 0 {
      assert (w + rest)[1..] == w[1..] + rest;
      WordOf(w[1..], rest);
    }
  }

  /** Extraction gives back the words a line was written from. */
  lemma {:induction false} TokensOfUnwords(ws: seq<string>)
    requires forall i :: 0 <= i < |ws| ==> |ws[i]| > 0 && NoSpace(ws[i])
    ensures Tokens(Unwords(ws)) == ws
  {
    if |ws| == 1 {
      WordOf(ws[0], "");
      assert ws[0] + "" == ws[0];
      assert Unwords(ws)[|ws[0]|..] == "";
    } else if |ws| > 1 {
      var s := Unwords(ws);
      var rest := " " + Unwords(ws[1..]);
      assert s == ws[0] + rest;
      WordOf(ws[0], rest);
      assert s[|ws[0]|..] == rest;
      assert rest[1..] == Unwords(ws[1..]);
      TokensOfUnwords(ws[1..]);
    }
  }

  /** The pieces between the '/' of `s`; there is always at least one. */
  function Pieces(s: string): (r: seq<string>)
    ensures |r| > 0
  {
    if |s| == 0 then [""]
    else
      var rest := Pieces(s[1..]);
      if s[0] == '/' then [""] + rest else [[s[0]] + rest[0]] + rest[1..]
  }

  /** What the `i`-th `getline(stream, s, '/')` leaves in a fresh string: the
      `i`-th piece, or nothing once the stream has run out. */
  function Field(s: string, i: nat): string
  {
    var p := Pieces(s);
    if i < |p| then p[i] else ""
  }

  predicate NoSlash(w: string)
  {
    forall i :: 0 <= i < |w| ==> w[i] != '/'
  }

  /** A piece without '/' is a single piece. */
  lemma {:induction false} PiecesOfPiece(a: string)
    requires NoSlash(a)
    ensures Pieces(a) == [a]
  {
    if |a| > 0 {
      PiecesOfPiece(a[1..]);
      assert [a[0]] + a[1..] == a;
    }
  }

  /** A piece, a '/' and whatever follows split into the piece and the
      pieces of what follows. */
  lemma {:induction false} PiecesOfJoin(a: string, rest: string)
    requires NoSlash(a)
    ensures Pieces(a + "/" + rest) == [a] + Pieces(rest)
  {
    var s := a + "/" + rest;
    if |a| == 0 {
      assert s[0] == '/' && s[1..] == rest;
    } else {
      assert s[0] == a[0] && s[1..] == a[1..] + "/" + rest;
      PiecesOfJoin(a[1..], rest);
      assert [a[0]] + a[1..] == a;
    }
  }

  /** A corner written as `p/t/n` splits back into its three pieces. */
  lemma PiecesOfCorner(p: string, t: string, n: string)
    requires NoSlash(p) && NoSlash(t) && NoSlash(n)
    ensures Pieces(p + "/" + t + "/" + n) == [p, t, n]
  {
    assert p + "/" + t + "/" + n == p + "/" + (t + "/" + n);
    PiecesOfJoin(p, t + "/" + n);
    PiecesOfJoin(t, n);
    PiecesOfPiece(n);
  }

  // std::stoi

  const IntMin := -0x8000_0000
  const IntMax := 0x7fff_ffff

  predicate IsDigit(c: char)
  {
    '0' <= c <= '9'
  }

  predicate AllDigits(s: string)
  {
    forall i :: 0 <= i < |s| ==> IsDigit(s[i])
  }

  /** `s` without its leading whitespace. */
  function SkipSpace(s: string): (r: string)
    ensures |r| <= |s|
  {
    if |s| > 0 && IsSpace(s[0]) then SkipSpace(s[1..]) else s
  }

  /** The longest run of digits at the start of `s`. */
  function DigitPrefix(s: string): (d: string)
  {
    if |s| == 0 || !IsDigit(s[0]) then [] else [s[0]] + DigitPrefix(s[1..])
  }

  /** What `DigitPrefix` reads is a run of digits that starts `s` and is
      not followed by another digit. */
  lemma {:induction false} DigitPrefixIsDigits(s: string)
    ensures DigitPrefix(s) <= s && AllDigits(DigitPrefix(s))
    ensures |DigitPrefix(s)| < |s| ==> !IsDigit(s[|DigitPrefix(s)|])
    decreases |s|
  {
    if |s| > 0 && IsDigit(s[0]) {
      DigitPrefixIsDigits(s[1..]);
    }
  }

  /** The number a run of decimal digits denotes. */
  function DigitsValue(ds: string): nat
    requires AllDigits(ds)
  {
    if |ds| == 0 then 0
    else DigitsValue(ds[..|ds| - 1]) * 10 + ((ds[|ds| - 1] as int) - ('0' as int))
  }

  /** The outcomes of `std::stoi`: a value, or one of its two exceptions. */
  datatype Converted = Converted(value: int) | InvalidArgument | OutOfRange

  /** `std::stoi(s)`: leading whitespace is skipped, a sign is optional, and
      the digits that follow are read; anything after them is ignored. No
      digit gives `invalid_argument`, a value outside `int` `out_of_range`. */
  function Stoi(s: string): (r: Converted)
    ensures r.Converted? ==> IntMin <= r.value <= IntMax
  {
    Strtoi(SkipSpace(s))
  }

  /** `stoi` once the whitespace is skipped. */
  function Strtoi(u: string): (r: Converted)
    ensures r.Converted? ==> IntMin <= r.value <= IntMax
  {
    if |u| > 0 && u[0] == '-' then DigitPrefixIsDigits(u[1..]); Convert(DigitPrefix(u[1..]), true)
    else if |u| > 0 && u[0] == '+' then DigitPrefixIsDigits(u[1..]); Convert(DigitPrefix(u[1..]), false)
    else DigitPrefixIsDigits(u); Convert(DigitPrefix(u), false)
  }

  /** The outcome for the digits read after the sign. */
  function Convert(ds: string, negative: bool): (r: Converted)
    requires AllDigits(ds)
    ensures r.Converted? ==> IntMin <= r.value <= IntMax
  {
    if |ds| == 0 then InvalidArgument
    else
      var v: int := if negative then 0 - DigitsValue(ds) else DigitsValue(ds);
      if IntMin <= v <= IntMax then Converted(v) else OutOfRange
  }

  function DigitChar(d: int): (c: char)
    requires 0 <= d < 10
    ensures IsDigit(c) && (c as int) - ('0' as int) == d
  {
    ('0' as int + d) as char
  }

  /** The decimal notation of `n`, without leading zeros. */
  function Decimal(n: nat): (s: string)
    ensures |s| > 0 && AllDigits(s)
  {
    if n < 10 then [DigitChar(n)] else Decimal(n / 10) + [DigitChar(n % 10)]
  }

  /** The digits of `Decimal(n)` denote `n`. */
  lemma {:induction false} DecimalValue(n: nat)
    ensures DigitsValue(Decimal(n)) == n
  {
    var s := Decimal(n);
    if n >= 10 {
      DecimalValue(n / 10);
      assert s[..|s| - 1] == Decimal(n / 10);
    } else {
      assert s[..0] == [];
    }
  }

  /** The digit run at the start of digits followed by a non-digit. */
  lemma {:induction false} DigitPrefixOf(ds: string, rest: string)
    requires AllDigits(ds) && (|rest| == 0 || !IsDigit(rest[0]))
    ensures DigitPrefix(ds + rest) == ds
  {
    if |ds| > 0 {
      assert (ds + rest)[1..] == ds[1..] + rest;
      DigitPrefixOf(ds[1..], rest);
    } else {
      assert ds + rest == rest;
    }
  }

  /** Nothing is skipped before a character that is not whitespace. */
  lemma SkipNothing(s: string)
    requires |s| > 0 && !IsSpace(s[0])
    ensures Stoi(s) == Strtoi(s)
  {
  }

  /** `stoi` on digits that start the string, followed by a non-digit,
      reads exactly those digits. */
  lemma StoiUnsigned(d: string, rest: string)
    requires |d| > 0 && AllDigits(d) && (|rest| == 0 || !IsDigit(rest[0]))
    ensures Stoi(d + rest) == Convert(d, false)
  {
    var s := d + rest;
    assert s[0] == d[0];
    SkipNothing(s);
    DigitPrefixOf(d, rest);
  }

  /** `stoi` on a minus sign, then digits, then a non-digit, reads exactly
      those digits, negated. */
  lemma StoiNegative(d: string, rest: string)
    requires |d| > 0 && AllDigits(d) && (|rest| == 0 || !IsDigit(rest[0]))
    ensures Stoi("-" + d + rest) == Convert(d, true)
  {
    var s := "-" + d + rest;
    assert s[0] == '-' && s[1..] == d + rest;
    SkipNothing(s);
    DigitPrefixOf(d, rest);
  }

  /** `stoi` reads back every `int` written in decimal, with or without a
      minus sign, whatever non-digit follows; a larger number is out of
      range. */
  lemma StoiOfDecimal(n: nat, rest: string)
    requires |rest| == 0 || !IsDigit(rest[0])
    ensures n <= IntMax ==> Stoi(Decimal(n) + rest) == Converted(n)
    ensures n <= -IntMin ==> Stoi("-" + Decimal(n) + rest) == Converted(0 - n)
    ensures n > IntMax ==> Stoi(Decimal(n) + rest) == OutOfRange
  {
    DecimalValue(n);
    StoiUnsigned(Decimal(n), rest);
    StoiNegative(Decimal(n), rest);
  }

  /** Without a digit after the sign there is no number. */
  lemma StoiNoDigits(s: string)
    requires |s| == 0 || (!IsDigit(s[0]) && !IsSpace(s[0]) && s[0] != '-' && s[0] != '+')
    ensures Stoi(s) == InvalidArgument
    ensures Stoi("-" + s) == InvalidArgument && Stoi("+" + s) == InvalidArgument
  {
    assert SkipSpace(s) == s;
    var m, p := "-" + s, "+" + s;
    assert m[0] == '-' && p[0] == '+';
    assert SkipSpace(m) == m && SkipSpace(p) == p;
    assert m[1..] == s && p[1..] == s;
  }
}
