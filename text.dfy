/**
 * The small pieces of Ruby's String and Integer behaviour that deploy.rb relies on:
 * decimal rendering (Integer#to_s, strftime padding), String#to_i, String#split with a
 * one-character separator, Array#join, String#chomp, and a first-occurrence cut used to
 * read query strings back.
 */
module Text {

  // ---------------------------------------------------------------- digits

  predicate IsDigit(c: char) { '0' <= c <= '9' }

  predicate AllDigits(s: string) { forall i :: 0 <= i < |s| ==> IsDigit(s[i]) }

  lemma DigitsConcat(a: string, b: string)
    requires AllDigits(a) && AllDigits(b)
    ensures AllDigits(a + b)
  {
    assert forall i :: 0 <= i < |a + b| ==> (a + b)[i] == if i < |a| then a[i] else b[i - |a|];
  }

  /** The value of a digit character (0 for any other character, which callers never pass). */
  function DigitValue(c: char): nat
  {
    if IsDigit(c) then c as int - '0' as int else 0
  }

  function DigitChar(d: nat): (c: char)
    requires d < 10
    ensures IsDigit(c) && DigitValue(c) == d
  {
    (d + '0' as int) as char
  }

  function Pow10(k: nat): (p: nat)
    ensures p >= 1
  {
    if k == 0 then 1 else 10 * Pow10(k - 1)
  }

  /** The value of a string of decimal digits, most significant digit first. */
  function Value(s: string): nat
    decreases |s|
  {
    if s == [] then 0 else Value(s[..|s| - 1]) * 10 + DigitValue(s[|s| - 1])
  }

  /** Decimal rendering of a natural number without leading zeros. */
  function Decimal(n: nat): string
    decreases n
  {
    if n < 10 then [DigitChar(n)] else Decimal(n / 10) + [DigitChar(n % 10)]
  }

  lemma {:induction false} DecimalDigits(n: nat)
    ensures |Decimal(n)| >= 1 && AllDigits(Decimal(n))
    decreases n
  {
    if n >= 10 {
      DecimalDigits(n / 10);
    }
  }

  lemma {:induction false} ValueOfDecimal(n: nat)
    ensures Value(Decimal(n)) == n
    decreases n
  {
    if n >= 10 {
      var s := Decimal(n);
      assert s[..|s| - 1] == Decimal(n / 10);
      ValueOfDecimal(n / 10);
    }
  }

  lemma {:induction false} DecimalLength(n: nat, w: nat)
    requires 1 <= w && n < Pow10(w)
    ensures |Decimal(n)| <= w
    decreases n
  {
    if n >= 10 {
      assert w >= 2;
      assert n / 10 < Pow10(w - 1);
      DecimalLength(n / 10, w - 1);
    }
  }

  function Zeros(k: nat): (z: string)
    ensures |z| == k
  {
    seq(k, _ => '0')
  }

  /** Zero-padding to a minimum width, as strftime's %m, %d, %H, %M, %S (width 2) and %Y (width 4) do. */
  function Pad(n: nat, width: nat): string
  {
    var d := Decimal(n);
    if |d| >= width then d else Zeros(width - |d|) + d
  }

  lemma {:induction false} ValueOfZeros(k: nat)
    ensures Value(Zeros(k)) == 0
  {
    if k > 0 {
      assert Zeros(k)[..k - 1] == Zeros(k - 1);
      ValueOfZeros(k - 1);
    }
  }

  lemma {:induction false} ValueIgnoresLeadingZeros(k: nat, d: string)
    requires AllDigits(d)
    ensures AllDigits(Zeros(k) + d)
    ensures Value(Zeros(k) + d) == Value(d)
    decreases |d|
  {
    var z := Zeros(k) + d;
    if d == [] {
      assert z == Zeros(k);
      ValueOfZeros(k);
    } else {
      assert z[..|z| - 1] == Zeros(k) + d[..|d| - 1];
      ValueIgnoresLeadingZeros(k, d[..|d| - 1]);
    }
  }

  /** A value below 10^width is padded to exactly width digits that read back as the value. */
  lemma PadReadsBack(n: nat, width: nat)
    requires 1 <= width && n < Pow10(width)
    ensures |Pad(n, width)| == width && AllDigits(Pad(n, width))
    ensures Value(Pad(n, width)) == n
  {
    var d := Decimal(n);
    DecimalDigits(n);
    DecimalLength(n, width);
    ValueOfDecimal(n);
    ValueIgnoresLeadingZeros(width - |d|, d);
  }

  // ---------------------------------------------------------------- Integer#to_s and String#to_i

  /** Integer#to_s: a minus sign for negative values, then the decimal digits. */
  function IntToText(i: int): string
  {
    if i < 0 then "-" + Decimal(-i) else Decimal(i)
  }

  /** The characters String#to_i skips before the number. */
  predicate IsSpace(c: char) { c == ' ' || c == '\t' || c == '\n' || c == '\U{B}' || c == '\U{C}' || c == '\r' }

  function SkipSpace(s: string): string
  {
    if |s| > 0 && IsSpace(s[0]) then SkipSpace(s[1..]) else s
  }

  /** The digits of the number at the head of s; an underscore between two digits is skipped. */
  function DigitRun(s: string): string
  {
    if |s| > 0 && IsDigit(s[0]) then [s[0]] + DigitTail(s[1..]) else []
  }

  function DigitTail(s: string): string
  {
    if |s| > 0 && IsDigit(s[0]) then [s[0]] + DigitTail(s[1..])
    else if |s| > 1 && s[0] == '_' && IsDigit(s[1]) then [s[1]] + DigitTail(s[2..])
    else []
  }

  /**
   * String#to_i in base 10: leading whitespace, an optional sign, then the longest run of
   * digits; anything else ends the number, and no digits at all give 0.
   */
  function ToI(s: string): int
  {
    var t := SkipSpace(s);
    if |t| > 0 && t[0] == '-' then -(Value(DigitRun(t[1..])) as int)
    else if |t| > 0 && t[0] == '+' then Value(DigitRun(t[1..]))
    else Value(DigitRun(t))
  }

  lemma {:induction false} DigitTailOfDigits(s: string)
    requires AllDigits(s)
    ensures DigitTail(s) == s
  {
    if |s| > 0 {
      DigitTailOfDigits(s[1..]);
    }
  }

  lemma DigitRunOfDigits(d: string)
    requires |d| >= 1 && AllDigits(d)
    ensures DigitRun(d) == d
  {
    DigitTailOfDigits(d[1..]);
    assert d == [d[0]] + d[1..];
  }

  /** to_i of a digit string is its value ... */
  lemma ToIOfDigits(d: string)
    requires |d| >= 1 && AllDigits(d)
    ensures ToI(d) == Value(d)
  {
    DigitRunOfDigits(d);
    assert SkipSpace(d) == d;
  }

  /** ... and with a minus sign in front, its negation. */
  lemma ToIOfNegatedDigits(d: string)
    requires |d| >= 1 && AllDigits(d)
    ensures ToI("-" + d) == -(Value(d) as int)
  {
    DigitRunOfDigits(d);
    var m := "-" + d;
    assert SkipSpace(m) == m;
    assert m[1..] == d;
  }

  /** Integer#to_s renders a sign and digits only. */
  lemma IntToTextChars(i: int)
    ensures var t := IntToText(i); |t| >= 1 && forall j :: 0 <= j < |t| ==> t[j] == '-' || IsDigit(t[j])
  {
    DecimalDigits(if i < 0 then -i else i);
  }

  /** to_i reads back what to_s renders. */
  lemma ToIOfIntToText(i: int)
    ensures ToI(IntToText(i)) == i
  {
    var n: nat := if i < 0 then -i else i;
    var d := Decimal(n);
    DecimalDigits(n);
    ValueOfDecimal(n);
    if i < 0 {
      ToIOfNegatedDigits(d);
    } else {
      ToIOfDigits(d);
    }
  }

  // ---------------------------------------------------------------- split and join

  /** All fields of s between occurrences of sep, empty ones included; always at least one. */
  function Fields(s: string, sep: char): (r: seq<string>)
    ensures |r| >= 1
  {
    if |s| == 0 then [""]
    else
      var rest := Fields(s[1..], sep);
      if s[0] == sep then [""] + rest else [[s[0]] + rest[0]] + rest[1..]
  }

  /** Array#join: the parts with sep between neighbours. */
  function Join(parts: seq<string>, sep: char): string
  {
    if |parts| == 0 then ""
    else if |parts| == 1 then parts[0]
    else parts[0] + [sep] + Join(parts[1..], sep)
  }

  lemma JoinCons(x: string, rest: seq<string>, sep: char)
    requires |rest| >= 1
    ensures Join([x] + rest, sep) == x + [sep] + Join(rest, sep)
  {
    assert ([x] + rest)[0] == x && ([x] + rest)[1..] == rest;
  }

  function DropTrailingEmpty(fields: seq<string>): (r: seq<string>)
    ensures |r| <= |fields| && r == fields[..|r|]
    ensures |r| > 0 ==> r[|r| - 1] != ""
  {
    if |fields| > 0 && fields[|fields| - 1] == "" then DropTrailingEmpty(fields[..|fields| - 1]) else fields
  }

  /**
   * String#split with a one-character separator other than a space (Ruby splits on runs of
   * whitespace for " ") and no limit: trailing empty fields are removed.
   */
  function Split(s: string, sep: char): seq<string>
  {
    DropTrailingEmpty(Fields(s, sep))
  }

  lemma {:induction false} FieldsOfConcat(p: string, q: string, sep: char)
    requires sep !in p
    ensures Fields(p + q, sep) == [p + Fields(q, sep)[0]] + Fields(q, sep)[1..]
    decreases |p|
  {
    if p != [] {
      var fq := Fields(q, sep);
      assert (p + q)[0] == p[0] && (p + q)[1..] == p[1..] + q;
      FieldsOfConcat(p[1..], q, sep);
      var rest := Fields(p[1..] + q, sep);
      assert rest[0] == p[1..] + fq[0] && rest[1..] == fq[1..];
      assert [p[0]] + (p[1..] + fq[0]) == p + fq[0];
    } else {
      var fq := Fields(q, sep);
      assert p + q == q && p + fq[0] == fq[0];
      assert fq == [fq[0]] + fq[1..];
    }
  }

  /** Splitting a join gives back the parts, provided none of them holds the separator. */
  lemma {:induction false} FieldsOfJoin(parts: seq<string>, sep: char)
    requires |parts| >= 1
    requires forall i :: 0 <= i < |parts| ==> sep !in parts[i]
    ensures Fields(Join(parts, sep), sep) == parts
    decreases |parts|
  {
    if |parts| == 1 {
      FieldsOfConcat(parts[0], "", sep);
      assert parts[0] + "" == parts[0];
    } else {
      var rest := Join(parts[1..], sep);
      FieldsOfJoin(parts[1..], sep);
      assert ([sep] + rest)[1..] == rest;
      assert Fields([sep] + rest, sep) == [""] + parts[1..];
      FieldsOfConcat(parts[0], [sep] + rest, sep);
      assert parts[0] + "" == parts[0];
      assert parts[0] + [sep] + rest == parts[0] + ([sep] + rest);
      assert parts == [parts[0]] + parts[1..];
    }
  }

  /** The text before the first sep and the text after it; without a sep, all of s and "". */
  function Cut(s: string, sep: char): (r: (string, string))
    ensures sep !in r.0
  {
    if |s| == 0 then ("", "")
    else if s[0] == sep then ("", s[1..])
    else var (before, after) := Cut(s[1..], sep); ([s[0]] + before, after)
  }

  lemma {:induction false} CutAtFirst(p: string, q: string, sep: char)
    requires sep !in p
    ensures Cut(p + [sep] + q, sep) == (p, q)
    decreases |p|
  {
    if p != [] {
      assert (p + [sep] + q)[1..] == p[1..] + [sep] + q;
      CutAtFirst(p[1..], q, sep);
      assert [p[0]] + p[1..] == p;
    } else {
      assert p + [sep] + q == [sep] + q;
    }
  }

  // ---------------------------------------------------------------- chomp

  /** String#chomp with no argument: removes one trailing "\r\n", "\n" or "\r". */
  function Chomp(s: string): (r: string)
    ensures |s| - 2 <= |r| <= |s| && r == s[..|r|]
  {
    if |s| >= 2 && s[|s| - 2..] == "\r\n" then s[..|s| - 2]
    else if |s| >= 1 && (s[|s| - 1] == '\n' || s[|s| - 1] == '\r') then s[..|s| - 1]
    else s
  }

  /**
   * chomp removes exactly one line ending, "\n", "\r\n" or "\r", from a line that does not
   * itself end in a line break, and leaves the bare line unchanged.
   */
  lemma ChompLine(line: string)
    requires |line| == 0 || (line[|line| - 1] != '\r' && line[|line| - 1] != '\n')
    ensures Chomp(line + "\n") == line
    ensures Chomp(line + "\r\n") == line
    ensures Chomp(line + "\r") == line
    ensures Chomp(line) == line
  {
    var s := line + "\n";
    if |s| >= 2 {
      assert s[|s| - 2] == line[|line| - 1];
    }
    assert s[..|s| - 1] == line;
    var crlf := line + "\r\n";
    assert crlf[|crlf| - 2..] == "\r\n" && crlf[..|crlf| - 2] == line;
    var cr := line + "\r";
    if |cr| >= 2 {
      assert cr[|cr| - 1] == '\r';
    }
    assert cr[..|cr| - 1] == line;
  }

  // ---------------------------------------------------------------- concatenation

  lemma EndOf(a: string, b: string)
    ensures |a + b| >= |b| && (a + b)[|a + b| - |b|..] == b
  {
  }
}
