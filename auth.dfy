/**
 * Email normalisation for the habit tracker's accounts
 * (habbit/lib/auth.ts, `normalizeEmail`): `trim()` then `toLowerCase()`.
 * Trimming removes the characters ECMAScript counts as white space or line
 * terminators; lower-casing is modelled on the ASCII letters.
 */
module Auth {

  /** ECMAScript WhiteSpace and LineTerminator code points, the characters `trim` removes. */
  predicate IsJsSpace(c: char) {
    var n := c as int;
    || n == 0x09 || n == 0x0B || n == 0x0C || n == 0x20 || n == 0xA0 || n == 0xFEFF  // TAB, VT, FF, SP, NBSP, ZWNBSP
    || n == 0x0A || n == 0x0D || n == 0x2028 || n == 0x2029                          // LF, CR, LS, PS
    || n == 0x1680 || 0x2000 <= n <= 0x200A || n == 0x202F || n == 0x205F || n == 0x3000  // the other Zs characters
  }

  predicate IsUpper(c: char) {
    'A' <= c <= 'Z'
  }

  /** The ASCII case mapping of one character; every other character is kept. */
  function LowerChar(c: char): (d: char)
    ensures !IsUpper(d)
    ensures IsUpper(c) ==> d as int == c as int + 32
    ensures !IsUpper(c) ==> d == c
  {
    if IsUpper(c) then (c as int + 32) as char else c
  }

  /** `toLowerCase`, character by character. */
  function ToLower(s: string): (r: string)
    ensures |r| == |s|
    ensures forall i :: 0 <= i < |s| ==> r[i] == LowerChar(s[i])
  {
    seq(|s|, i requires 0 <= i < |s| => LowerChar(s[i]))
  }

  /** The string drops no leading or trailing white space. */
  predicate Trimmed(s: string) {
    s == [] || (!IsJsSpace(s[0]) && !IsJsSpace(s[|s| - 1]))
  }

  predicate AllSpace(s: string) {
    forall i :: 0 <= i < |s| ==> IsJsSpace(s[i])
  }

  /** `trimStart`: the string without its leading white space. */
  function TrimStart(s: string): (r: string)
    ensures |r| <= |s| && r == s[|s| - |r|..]
    ensures AllSpace(s[..|s| - |r|])
    ensures r == [] || !IsJsSpace(r[0])
    decreases |s|
  {
    if s != [] && IsJsSpace(s[0]) then
      var r := TrimStart(s[1..]);
      assert s[..|s| - |r|] == [s[0]] + s[1..][..|s| - 1 - |r|];
      r
    else s
  }

  /** `trimEnd`: the string without its trailing white space. */
  function TrimEnd(s: string): (r: string)
    ensures |r| <= |s| && r == s[..|r|]
    ensures AllSpace(s[|r|..])
    ensures r == [] || !IsJsSpace(r[|r| - 1])
    decreases |s|
  {
    if s != [] && IsJsSpace(s[|s| - 1]) then
      var r := TrimEnd(s[..|s| - 1]);
      assert s[|r|..] == s[..|s| - 1][|r|..] + [s[|s| - 1]];
      r
    else s
  }

  /**
   * `trim`: the infix of the string between its leading and its trailing
   * white space, with no white space left at either end.
   */
  function Trim(s: string): (r: string)
    ensures Trimmed(r) && |r| <= |s|
    ensures exists i, j :: 0 <= i <= j <= |s| && r == s[i..j] && AllSpace(s[..i]) && AllSpace(s[j..])
  {
    var t := TrimStart(s);
    var r := TrimEnd(t);
    assert r != [] ==> r[0] == t[0];
    var i := |s| - |t|;
    assert r == s[i..i + |r|];
    assert s[i + |r|..] == t[|r|..];
    r
  }

  /** `normalizeEmail`: no longer than the input, and free of upper-case letters. */
  function NormalizeEmail(email: string): (r: string)
    ensures |r| <= |email|
    ensures forall i :: 0 <= i < |r| ==> !IsUpper(r[i])
  {
    ToLower(Trim(email))
  }

  /** Lower-casing keeps the ends of a string what they were as far as white space goes. */
  lemma ToLowerKeepsSpace(s: string, i: nat)
    requires i < |s|
    ensures IsJsSpace(ToLower(s)[i]) <==> IsJsSpace(s[i])
  {
  }

  /** Lower-casing a string with no white space at its ends leaves none there. */
  lemma ToLowerTrimmed(t: string)
    requires Trimmed(t)
    ensures Trimmed(ToLower(t))
  {
    if t != [] {
      var r := ToLower(t);
      ToLowerKeepsSpace(t, 0);
      ToLowerKeepsSpace(t, |t| - 1);
      assert r[|r| - 1] == r[|t| - 1];
    }
  }

  /**
   * The normalised address has no leading or trailing white space and no
   * upper-case letter, and is no longer than the input.
   */
  lemma NormalizedShape(email: string)
    ensures var r := NormalizeEmail(email);
            && Trimmed(r)
            && (forall i :: 0 <= i < |r| ==> !IsUpper(r[i]))
            && |r| <= |email|
  {
    ToLowerTrimmed(Trim(email));
  }

  /**
   * The normalised address is the lower-cased part of the input between
   * its leading and its trailing white space: nothing else is dropped.
   */
  lemma NormalizedInfix(email: string)
    ensures exists i, j :: 0 <= i <= j <= |email| && AllSpace(email[..i]) && AllSpace(email[j..])
                           && NormalizeEmail(email) == ToLower(email[i..j])
  {
    var t := Trim(email);
    var i, j :| 0 <= i <= j <= |email| && t == email[i..j] && AllSpace(email[..i]) && AllSpace(email[j..]);
    assert NormalizeEmail(email) == ToLower(email[i..j]);
  }

  /** A string already trimmed and in lower case is its own normal form. */
  lemma NormalizeFixedPoint(email: string)
    requires Trimmed(email) && forall i :: 0 <= i < |email| ==> !IsUpper(email[i])
    ensures NormalizeEmail(email) == email
  {
    assert TrimStart(email) == email;
    assert TrimEnd(email) == email;
  }

  /** Normalising twice is normalising once. */
  lemma NormalizeIdempotent(email: string)
    ensures NormalizeEmail(NormalizeEmail(email)) == NormalizeEmail(email)
  {
    NormalizedShape(email);
    NormalizeFixedPoint(NormalizeEmail(email));
  }
}
