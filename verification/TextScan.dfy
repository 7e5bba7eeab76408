/** Text scanning shared by the parsers: digit runs, white space and decimal
    numbers, each function returning the rest of the text it did not consume.
    ASCII only, as in the Loxone wire texts. */
module TextScan {
  import opened AlexaModel

  predicate IsDigit(c: char) {
    '0' <= c <= '9'
  }

  /** The ASCII members of `\s`. */
  predicate IsSpace(c: char) {
    c == ' ' || c == '\t' || c == '\n' || c == '\r' || c as int == 11 || c as int == 12
  }

  function DigitValue(c: char): nat
    requires IsDigit(c)
  {
    c as int - '0' as int
  }

  function DigitChar(d: nat): char
    requires d < 10
  {
    ('0' as int + d) as char
  }

  predicate AllDigits(s: string) {
    forall i :: 0 <= i < |s| ==> IsDigit(s[i])
  }

  predicate StartsWithDigit(s: string) {
    s != "" && IsDigit(s[0])
  }

  function NatOf(digits: string): nat
    requires AllDigits(digits)
  {
    if digits == "" then 0
    else 10 * NatOf(digits[..|digits| - 1]) + DigitValue(digits[|digits| - 1])
  }

  function PrintNat(n: nat): (s: string)
    ensures s != "" && AllDigits(s)
  {
    if n < 10 then [DigitChar(n)] else PrintNat(n / 10) + [DigitChar(n % 10)]
  }

  function PrintInt(n: int): string {
    if n < 0 then "-" + PrintNat(-n) else PrintNat(n)
  }

  function LeadingDigits(s: string): (d: string)
    ensures AllDigits(d) && d <= s
    ensures !StartsWithDigit(s[|d|..])
  {
    if StartsWithDigit(s) then [s[0]] + LeadingDigits(s[1..]) else ""
  }

  function SkipSpaces(s: string): string {
    if s != "" && IsSpace(s[0]) then SkipSpaces(s[1..]) else s
  }

  function TrimEnd(s: string): string {
    if s != "" && IsSpace(s[|s| - 1]) then TrimEnd(s[..|s| - 1]) else s
  }

  function Trim(s: string): string {
    TrimEnd(SkipSpaces(s))
  }

  function Lower(c: char): char {
    if 'A' <= c <= 'Z' then (c as int + 32) as char else c
  }

  function LowerAll(s: string): string {
    seq(|s|, i requires 0 <= i < |s| => Lower(s[i]))
  }

  function SplitCommas(s: string): (parts: seq<string>)
    ensures |parts| > 0
  {
    if s == "" then [""]
    else
      var rest := SplitCommas(s[1..]);
      if s[0] == ',' then [""] + rest else [[s[0]] + rest[0]] + rest[1..]
  }

  /** 0.d1d2d3... */
  function FractionOf(digits: string): real
    requires AllDigits(digits)
  {
    if digits == "" then 0.0 else (DigitValue(digits[0]) as real + FractionOf(digits[1..])) / 10.0
  }

  /** `\d+(?:\.\d+)?` : the number and the rest of the text. */
  function Unsigned(s: string): Option<(real, string)> {
    var whole := LeadingDigits(s);
    if whole == "" then None
    else
      var rest := s[|whole|..];
      var fraction := if rest != "" && rest[0] == '.' then LeadingDigits(rest[1..]) else "";
      if fraction == "" then Some((NatOf(whole) as real, rest))
      else Some((NatOf(whole) as real + FractionOf(fraction), rest[1 + |fraction|..]))
  }

  /** `-?\d+(?:\.\d+)?` */
  function Signed(s: string): Option<(real, string)> {
    if s != "" && s[0] == '-' then
      match Unsigned(s[1..])
      case None => None
      case Some((x, rest)) => Some((-x, rest))
    else Unsigned(s)
  }

  lemma {:induction false} NatOfPrintNat(n: nat)
    ensures NatOf(PrintNat(n)) == n
  {
    if n < 10 {
      assert PrintNat(n)[..0] == "";
    } else {
      NatOfPrintNat(n / 10);
      var front := PrintNat(n / 10);
      assert PrintNat(n)[..|front|] == front;
    }
  }

  lemma {:induction false} LeadingDigitsOf(digits: string, rest: string)
    requires AllDigits(digits) && !StartsWithDigit(rest)
    ensures LeadingDigits(digits + rest) == digits
  {
    if digits == "" {
      assert digits + rest == rest;
    } else {
      assert (digits + rest)[1..] == digits[1..] + rest;
      LeadingDigitsOf(digits[1..], rest);
    }
  }

  lemma UnsignedReadsPrintedNat(n: nat, rest: string)
    requires !StartsWithDigit(rest) && (rest != "" ==> rest[0] != '.')
    ensures Unsigned(PrintNat(n) + rest) == Some((n as real, rest))
  {
    var digits := PrintNat(n);
    NatOfPrintNat(n);
    LeadingDigitsOf(digits, rest);
    assert (digits + rest)[|digits|..] == rest;
  }

  lemma SignedOfNegative(s: string, x: real, rest: string)
    requires s != "" && s[0] == '-' && Unsigned(s[1..]) == Some((x, rest))
    ensures Signed(s) == Some((-x, rest))
  {
  }

  lemma SignedOfUnsigned(s: string)
    requires s != "" && s[0] != '-'
    ensures Signed(s) == Unsigned(s)
  {
  }

  /** A printed integer followed by something that cannot continue it is read
      back as itself. */
  lemma SignedReadsPrintedInt(n: int, rest: string)
    requires !StartsWithDigit(rest) && (rest != "" ==> rest[0] != '.')
    ensures Signed(PrintInt(n) + rest) == Some((n as real, rest))
  {
    var m := if n < 0 then -n else n;
    var digits := PrintNat(m);
    UnsignedReadsPrintedNat(m, rest);
    if n < 0 {
      var s := "-" + digits + rest;
      assert s[1..] == digits + rest;
      SignedOfNegative(s, m as real, rest);
    } else {
      assert IsDigit((digits + rest)[0]);
      SignedOfUnsigned(digits + rest);
    }
  }

  lemma SkipNoSpaces(s: string)
    requires s != "" ==> !IsSpace(s[0])
    ensures SkipSpaces(s) == s
  {
  }

  lemma TrimNothing(s: string)
    requires s != "" ==> !IsSpace(s[0]) && !IsSpace(s[|s| - 1])
    ensures Trim(s) == s
  {
  }

  lemma PrintIntStart(n: int, rest: string)
    ensures var s := PrintInt(n) + rest; s != "" && !IsSpace(s[0])
  {
    assert IsDigit(PrintNat(if n < 0 then -n else n)[0]);
  }
}
