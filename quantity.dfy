/**
 * The numeric encodings both Go exporters rely on: the JSON-RPC "QUANTITY"
 * hex strings ("0x" followed by hex digits), decoded with Go's
 * strconv.ParseUint(s, 16, 64) behind `hexToUint64`; the `fmt "0x%x"` form
 * the exporters build block numbers with; and the `fmt "%d"` form used for
 * label values.
 *
 * A Go string is a sequence of bytes; here each char stands for one byte.
 */
module Quantity {

  /** 2^64, one more than the largest uint64. */
  const U64: nat := 0x1_0000_0000_0000_0000
  const MaxU64: nat := 0xffff_ffff_ffff_ffff

  /** strconv's cutoff for base 16: the smallest n for which n * 16 overflows. */
  const Cutoff: nat := MaxU64 / 16 + 1

  /** The digits strconv accepts in base 16 (it lower-cases ASCII letters). */
  predicate IsHexDigit(c: char) {
    '0' <= c <= '9' || 'a' <= c <= 'f' || 'A' <= c <= 'F'
  }

  predicate AllHex(s: string) {
    forall i :: 0 <= i < |s| ==> IsHexDigit(s[i])
  }

  function DigitValue(c: char): (d: nat)
    requires IsHexDigit(c)
    ensures d < 16
  {
    if '0' <= c <= '9' then c as nat - '0' as nat
    else if 'a' <= c <= 'f' then c as nat - 'a' as nat + 10
    else c as nat - 'A' as nat + 10
  }

  /** The number a string of hex digits denotes, most significant digit first. */
  function DigitsValue(s: string): nat
    requires AllHex(s)
  {
    if s == [] then 0 else DigitsValue(s[..|s| - 1]) * 16 + DigitValue(s[|s| - 1])
  }

  /**
   * What strconv.ParseUint(s, 16, 64) returns. Go returns a value together
   * with an error: with a syntax error the value is 0, with a range error it
   * is the largest uint64.
   */
  datatype ParseResult = Parsed(n: nat) | SyntaxError | RangeError {
    function Value(): nat {
      match this
      case Parsed(n) => n
      case SyntaxError => 0
      case RangeError => MaxU64
    }
  }

  /** strconv's digit loop from index i on, with n the value read so far. */
  function ParseDigitsFrom(s: string, i: nat, n: nat): (r: ParseResult)
    requires i <= |s| && n <= MaxU64
    ensures r.Parsed? ==> r.n <= MaxU64
    decreases |s| - i
  {
    if i == |s| then Parsed(n)
    else if !IsHexDigit(s[i]) then SyntaxError
    else if n >= Cutoff then RangeError
    else
      var n1 := n * 16 + DigitValue(s[i]);
      if n1 > MaxU64 then RangeError else ParseDigitsFrom(s, i + 1, n1)
  }

  /** strconv.ParseUint(s, 16, 64). */
  function ParseUint16(s: string): (r: ParseResult)
    ensures r.Value() <= MaxU64
  {
    if s == "" then SyntaxError else ParseDigitsFrom(s, 0, 0)
  }

  /**
   * `hexToUint64`: "" and "0x" are 0; otherwise the first two characters are
   * dropped unchecked and the parse error, if any, is discarded. A string of
   * length 1 makes the Go slice `hexStr[2:]` panic, hence the precondition.
   */
  function HexToUint64(s: string): (v: nat)
    requires |s| != 1
    ensures v <= MaxU64
  {
    if s == "" || s == "0x" then 0 else ParseUint16(s[2..]).Value()
  }

  /**
   * The strict decoding of GetBlockNumber, GetGasPrice and
   * GetMaxPriorityFeePerGas: `strconv.ParseUint(hexStr[2:], 16, 64)` with
   * its error kept. A string shorter than 2 makes the slice panic.
   */
  function ParseQuantity(s: string): (r: ParseResult)
    requires |s| >= 2
    ensures r.Parsed? ==> r.n <= MaxU64 && HexToUint64(s) == r.n
  {
    ParseUint16(s[2..])
  }

  function HexDigitChar(d: nat): (c: char)
    requires d < 16
    ensures IsHexDigit(c) && DigitValue(c) == d && !('A' <= c <= 'F')
  {
    if d < 10 then ('0' as nat + d) as char else ('a' as nat + d - 10) as char
  }

  /** `fmt.Sprintf("%x", n)`: minimal lower-case hex, "0" for zero. */
  function FormatHex(n: nat): (s: string)
    ensures |s| >= 1 && AllHex(s)
    ensures forall i :: 0 <= i < |s| ==> !('A' <= s[i] <= 'F')
    ensures |s| > 1 ==> s[0] != '0'
    decreases n
  {
    if n < 16 then [HexDigitChar(n)] else FormatHex(n / 16) + [HexDigitChar(n % 16)]
  }

  // ----- Properties of the hex decoding -----

  lemma {:induction false} DigitsValuePrefix(s: string, i: nat)
    requires AllHex(s) && i <= |s|
    ensures AllHex(s[..i]) && DigitsValue(s[..i]) <= DigitsValue(s)
    decreases |s|
  {
    if i < |s| {
      var p := s[..|s| - 1];
      DigitsValuePrefix(p, i);
      assert p[..i] == s[..i];
    } else {
      assert s[..i] == s;
    }
  }

  lemma DigitsValueStep(s: string, i: nat)
    requires i < |s| && AllHex(s[..i + 1])
    ensures AllHex(s[..i]) && DigitsValue(s[..i + 1]) == DigitsValue(s[..i]) * 16 + DigitValue(s[i])
  {
    assert s[..i + 1][..i] == s[..i];
  }

  /**
   * On a string of hex digits the loop returns the value the digits denote
   * when it fits in 64 bits, and a range error otherwise.
   */
  lemma {:induction false} ParseDigitsAllHex(s: string, i: nat)
    requires AllHex(s) && i <= |s|
    requires AllHex(s[..i]) && DigitsValue(s[..i]) <= MaxU64
    ensures ParseDigitsFrom(s, i, DigitsValue(s[..i]))
            == if DigitsValue(s) <= MaxU64 then Parsed(DigitsValue(s)) else RangeError
    decreases |s| - i
  {
    if i == |s| {
      assert s[..i] == s;
    } else {
      DigitsValueStep(s, i);
      DigitsValuePrefix(s, i + 1);
      var n := DigitsValue(s[..i]);
      if n < Cutoff && DigitsValue(s[..i + 1]) <= MaxU64 {
        ParseDigitsAllHex(s, i + 1);
      }
    }
  }

  /** A non-hex character met before the value overflows gives a syntax error. */
  lemma {:induction false} ParseDigitsSyntax(s: string, k: nat, i: nat)
    requires k < |s| && !IsHexDigit(s[k]) && AllHex(s[..k]) && DigitsValue(s[..k]) <= MaxU64
    requires i <= k
    ensures AllHex(s[..i]) && DigitsValue(s[..i]) <= MaxU64
    ensures ParseDigitsFrom(s, i, DigitsValue(s[..i])) == SyntaxError
    decreases k - i
  {
    assert s[..k][..i] == s[..i];
    DigitsValuePrefix(s[..k], i);
    if i < k {
      assert s[..k][..i + 1] == s[..i + 1];
      DigitsValuePrefix(s[..k], i + 1);
      DigitsValueStep(s, i);
      ParseDigitsSyntax(s, k, i + 1);
    }
  }

  /** `hexToUint64("")` and `hexToUint64("0x")` are 0. */
  lemma HexEmptyIsZero()
    ensures HexToUint64("") == 0 && HexToUint64("0x") == 0
  {
  }

  /**
   * A body (everything after the first two characters) holding a non-hex
   * character is decoded as 0, provided the digits before that character
   * still fit in 64 bits (strconv stops at whichever error it meets first).
   */
  lemma HexNonHexBodyIsZero(s: string, k: nat)
    requires |s| >= 2 && 2 <= k < |s| && !IsHexDigit(s[k])
    requires AllHex(s[2..k]) && DigitsValue(s[2..k]) <= MaxU64
    ensures HexToUint64(s) == 0
  {
    var b := s[2..];
    assert b[..k - 2] == s[2..k];
    ParseDigitsSyntax(b, k - 2, 0);
    assert b[..0] == [];
  }

  /** A body of hex digits too large for 64 bits saturates at the largest uint64. */
  lemma HexOverflowSaturates(s: string)
    requires |s| >= 2 && AllHex(s[2..]) && DigitsValue(s[2..]) > MaxU64
    ensures HexToUint64(s) == MaxU64
  {
    var b := s[2..];
    assert b[..0] == [];
    ParseDigitsAllHex(b, 0);
  }

  /** A well-formed body decodes to the number its digits denote, whatever the first two characters are. */
  lemma HexWellFormedBody(s: string)
    requires |s| > 2 && AllHex(s[2..]) && DigitsValue(s[2..]) <= MaxU64
    ensures HexToUint64(s) == DigitsValue(s[2..])
    ensures ParseQuantity(s) == Parsed(DigitsValue(s[2..]))
  {
    var b := s[2..];
    assert b[..0] == [];
    ParseDigitsAllHex(b, 0);
  }

  lemma {:induction false} FormatHexValue(n: nat)
    ensures DigitsValue(FormatHex(n)) == n
    decreases n
  {
    if n >= 16 {
      FormatHexValue(n / 16);
      var s := FormatHex(n);
      assert s[..|s| - 1] == FormatHex(n / 16);
    }
  }

  /**
   * Round trip: decoding "0x" followed by the `%x` form of any uint64 gives
   * the number back.
   */
  lemma HexRoundTrip(n: nat)
    requires n <= MaxU64
    ensures HexToUint64("0x" + FormatHex(n)) == n
    ensures ParseQuantity("0x" + FormatHex(n)) == Parsed(n)
  {
    var s := "0x" + FormatHex(n);
    assert s[2..] == FormatHex(n);
    FormatHexValue(n);
    HexWellFormedBody(s);
  }

  // ----- Decimal label values -----

  predicate IsDecimalDigit(c: char) {
    '0' <= c <= '9'
  }

  function DecimalDigitValue(c: char): (d: nat)
    requires IsDecimalDigit(c)
    ensures d < 10
  {
    c as nat - '0' as nat
  }

  function DecimalDigitChar(d: nat): (c: char)
    requires d < 10
    ensures IsDecimalDigit(c) && DecimalDigitValue(c) == d
  {
    ('0' as nat + d) as char
  }

  /** `fmt.Sprintf("%d", n)` for an unsigned n. */
  function FormatDecimal(n: nat): (s: string)
    ensures |s| >= 1 && forall i :: 0 <= i < |s| ==> IsDecimalDigit(s[i])
    decreases n
  {
    if n < 10 then [DecimalDigitChar(n)] else FormatDecimal(n / 10) + [DecimalDigitChar(n % 10)]
  }

  /** The number a string of decimal digits denotes. */
  function DecimalValue(s: string): nat
    requires forall i :: 0 <= i < |s| ==> IsDecimalDigit(s[i])
  {
    if s == [] then 0 else DecimalValue(s[..|s| - 1]) * 10 + DecimalDigitValue(s[|s| - 1])
  }

  lemma {:induction false} FormatDecimalValue(n: nat)
    ensures DecimalValue(FormatDecimal(n)) == n
    decreases n
  {
    if n >= 10 {
      FormatDecimalValue(n / 10);
      var s := FormatDecimal(n);
      assert s[..|s| - 1] == FormatDecimal(n / 10);
    }
  }

  /** Distinct numbers get distinct decimal labels. */
  lemma FormatDecimalInjective(a: nat, b: nat)
    requires a != b
    ensures FormatDecimal(a) != FormatDecimal(b)
  {
    FormatDecimalValue(a);
    FormatDecimalValue(b);
  }

  /** Wrapping to 64 bits never increases a number and keeps one that fits. */
  lemma WrapBelow(x: nat)
    ensures x % U64 <= x
    ensures x <= MaxU64 ==> x % U64 == x
  {
  }

  /** The integer arithmetic of a wrapping uint64 addition. */
  lemma AddWrap(a: nat, x: nat)
    ensures (a % U64 + x) % U64 == (a + x) % U64
  {
    var q := a / U64;
    assert a == q * U64 + a % U64;
    assert a + x == (a % U64 + x) + q * U64;
  }
}
