/**
 * The hexadecimal text form of a byte string, as produced by
 * `Convert.ToHexStringLower` and read back by `Convert.FromHexString`:
 * two digits per byte, high nibble first.
 */
module Hex {
  import opened Wrappers
  import opened Positional

  /** The only failure of `Convert.FromHexString`: an odd length or a non-hex character. */
  datatype HexError = FormatError

  /** The lower-case digit for a nibble. */
  function NibbleChar(n: nat): (c: char)
    requires n < 16
  {
    if n < 10 then ('0' as int + n) as char else ('a' as int + n - 10) as char
  }

  /** The value of a hex digit of either case, or None for any other character. */
  function NibbleValue(c: char): (r: Option<nat>)
    ensures r.Some? ==> r.value < 16
  {
    if '0' <= c <= '9' then Some(c as int - '0' as int)
    else if 'a' <= c <= 'f' then Some(c as int - 'a' as int + 10)
    else if 'A' <= c <= 'F' then Some(c as int - 'A' as int + 10)
    else None
  }

  predicate IsLowerHexDigit(c: char) {
    '0' <= c <= '9' || 'a' <= c <= 'f'
  }

  predicate IsLowerHex(s: string) {
    forall k :: 0 <= k < |s| ==> IsLowerHexDigit(s[k])
  }

  /** `Convert.ToHexStringLower`. */
  function ToHexLower(bytes: seq<byte>): (s: string)
    ensures |s| == 2 * |bytes| && IsLowerHex(s)
  {
    if |bytes| == 0 then ""
    else [NibbleChar(bytes[0] / 16), NibbleChar(bytes[0] % 16)] + ToHexLower(bytes[1..])
  }

  /** `Convert.FromHexString`: accepts digits of either case, two per byte. */
  function FromHex(s: string): Result<seq<byte>, HexError> {
    if |s| == 0 then Success([])
    else if |s| == 1 then Failure(FormatError)
    else match (NibbleValue(s[0]), NibbleValue(s[1]))
      case (Some(hi), Some(lo)) =>
        (match FromHex(s[2..])
          case Success(rest) => Success([hi * 16 + lo] + rest)
          case Failure(e) => Failure(e))
      case _ => Failure(FormatError)
  }

  lemma NibbleRoundTrip(n: nat)
    requires n < 16
    ensures NibbleValue(NibbleChar(n)) == Some(n) && IsLowerHexDigit(NibbleChar(n))
  {
  }

  lemma NibbleCharOfValue(c: char)
    requires IsLowerHexDigit(c)
    ensures NibbleValue(c).Some? && NibbleChar(NibbleValue(c).value) == c
  {
  }

  /** Reading back the lower-case hex text of a byte string gives the bytes. */
  lemma {:induction false} FromHexToHex(bytes: seq<byte>)
    ensures FromHex(ToHexLower(bytes)) == Success(bytes)
  {
    if |bytes| > 0 {
      var b := bytes[0];
      var s := ToHexLower(bytes);
      NibbleRoundTrip(b / 16);
      NibbleRoundTrip(b % 16);
      assert s[2..] == ToHexLower(bytes[1..]);
      FromHexToHex(bytes[1..]);
      assert [b] + bytes[1..] == bytes;
    }
  }

  /** Hex text is accepted exactly when it has even length and only hex digits. */
  lemma {:induction false} FromHexSuccess(s: string)
    ensures FromHex(s).Success? <==> (|s| % 2 == 0 && forall k :: 0 <= k < |s| ==> NibbleValue(s[k]).Some?)
    ensures FromHex(s).Success? ==> |FromHex(s).value| == |s| / 2
  {
    if |s| >= 2 {
      FromHexSuccess(s[2..]);
      assert forall k :: 2 <= k < |s| ==> s[k] == s[2..][k - 2];
    }
  }

  /** Lower-case hex text is the canonical form: writing out what it decodes to gives it back. */
  lemma {:induction false} ToHexFromHex(s: string)
    requires IsLowerHex(s) && FromHex(s).Success?
    ensures ToHexLower(FromHex(s).value) == s
  {
    if |s| >= 2 {
      var hi, lo := NibbleValue(s[0]).value, NibbleValue(s[1]).value;
      NibbleCharOfValue(s[0]);
      NibbleCharOfValue(s[1]);
      assert IsLowerHex(s[2..]);
      ToHexFromHex(s[2..]);
      var b := hi * 16 + lo;
      assert b / 16 == hi && b % 16 == lo;
      assert s == [s[0], s[1]] + s[2..];
    }
  }
}
