/**
 * A Spotify id: a 128-bit unsigned integer, written either as exactly 22
 * base-62 characters (most significant digit first, alphabet `0-9a-z A-Z`)
 * or as 16 big-endian bytes, the form the metadata protocol carries.
 */
module SpotifyIds {
  import opened Wrappers
  import opened Positional
  import Hex
  import Text

  const Size: nat := 16
  const SizeBase62: nat := 22
  const Base62Alphabet: string := "0123456789" + "abcdefghijklmnopqrstuvwxyz" + "ABCDEFGHIJKLMNOPQRSTUVWXYZ"

  const Two128: nat := 0x1_0000_0000_0000_0000_0000_0000_0000_0000

  /** `UInt128`. */
  type U128 = x: nat | x < 0x1_0000_0000_0000_0000_0000_0000_0000_0000
  /** `ulong`: a value of this type can never have wrapped around. */
  type U64 = x: nat | x < 0x1_0000_0000_0000_0000

  datatype SpotifyId = SpotifyId(id: U128)

  /** The exceptions the parsers of the plugin throw. */
  datatype IdError =
    | NullOrEmpty
    | WrongLength(length: nat)
    | InvalidCharacter(c: char)
    | Overflow
    | WrongByteCount(count: nat)

  // ---------------------------------------------------------------- digits

  /** The character for base-62 digit d, by ranges of the alphabet. */
  function DigitChar(d: nat): (c: char)
    requires d < 62
    ensures c as int < 128
  {
    if d < 10 then ('0' as int + d) as char
    else if d < 36 then ('a' as int + d - 10) as char
    else ('A' as int + d - 36) as char
  }

  /** The digit switch of `FromBase62`: None where the C# code throws. */
  function DigitValue(c: char): (r: Option<nat>)
    ensures r.Some? ==> r.value < 62
  {
    if '0' <= c <= '9' then Some(c as int - '0' as int)
    else if 'a' <= c <= 'z' then Some(c as int - 'a' as int + 10)
    else if 'A' <= c <= 'Z' then Some(c as int - 'A' as int + 36)
    else None
  }

  lemma AlphabetAt(d: nat)
    requires d < 62
    ensures |Base62Alphabet| == 62 && Base62Alphabet[d] == DigitChar(d)
  {
    if d < 10 {
    } else if d < 36 {
    } else {
    }
  }

  /** The decoding switch inverts the encoding alphabet, and accepts nothing else. */
  lemma DigitRoundTrip(d: nat)
    requires d < 62
    ensures DigitValue(Base62Alphabet[d]) == Some(d)
  {
    AlphabetAt(d);
  }

  lemma DigitCharOfValue(c: char)
    requires DigitValue(c).Some?
    ensures Base62Alphabet[DigitValue(c).value] == c
  {
    AlphabetAt(DigitValue(c).value);
  }

  predicate AllDigits(s: string) {
    forall k :: 0 <= k < |s| ==> DigitValue(s[k]).Some?
  }

  /** The digit values of a string of base-62 characters. */
  function DigitValues(s: string): (ds: seq<nat>)
    requires AllDigits(s)
    ensures |ds| == |s| && DigitsBelow(ds, 62)
  {
    seq(|s|, k requires 0 <= k < |s| => DigitValue(s[k]).value)
  }

  /** The characters for a sequence of base-62 digits. */
  function DigitString(ds: seq<nat>): (s: string)
    requires DigitsBelow(ds, 62)
    ensures |s| == |ds|
  {
    seq(|ds|, k requires 0 <= k < |ds| => Base62Alphabet[ds[k]])
  }

  lemma DigitStringValues(ds: seq<nat>)
    requires DigitsBelow(ds, 62)
    ensures AllDigits(DigitString(ds)) && DigitValues(DigitString(ds)) == ds
  {
    forall k | 0 <= k < |ds| ensures DigitValue(DigitString(ds)[k]) == Some(ds[k]) {
      DigitRoundTrip(ds[k]);
    }
  }

  lemma DigitValuesString(s: string)
    requires AllDigits(s)
    ensures DigitString(DigitValues(s)) == s
  {
    forall k | 0 <= k < |s| ensures DigitString(DigitValues(s))[k] == s[k] {
      DigitCharOfValue(s[k]);
    }
  }

  // ---------------------------------------------------------------- constants

  lemma PowersOf256()
    ensures Pow(256, 16) == Two128
  {
    assert Pow(256, 2) == 65536;
    assert Pow(256, 4) == Pow(256, 2) * Pow(256, 2) by { PowAdd(256, 2, 2); }
    assert Pow(256, 8) == Pow(256, 4) * Pow(256, 4) by { PowAdd(256, 4, 4); }
    assert Pow(256, 16) == Pow(256, 8) * Pow(256, 8) by { PowAdd(256, 8, 8); }
  }

  lemma PowersOf2()
    ensures Pow(2, 32) == 0x1_0000_0000 && Pow(2, 128) == Two128
  {
    assert Pow(2, 4) == 16;
    assert Pow(2, 8) == Pow(2, 4) * Pow(2, 4) by { PowAdd(2, 4, 4); }
    assert Pow(2, 16) == Pow(2, 8) * Pow(2, 8) by { PowAdd(2, 8, 8); }
    assert Pow(2, 32) == Pow(2, 16) * Pow(2, 16) by { PowAdd(2, 16, 16); }
    assert Pow(2, 64) == Pow(2, 32) * Pow(2, 32) by { PowAdd(2, 32, 32); }
    assert Pow(2, 128) == Pow(2, 64) * Pow(2, 64) by { PowAdd(2, 64, 64); }
  }

  /** 22 base-62 digits are enough for every 128-bit value. */
  lemma Base62Capacity()
    ensures Two128 < Pow(62, SizeBase62)
  {
    assert Pow(62, 2) == 3844;
    assert Pow(62, 4) == Pow(62, 2) * Pow(62, 2) by { PowAdd(62, 2, 2); }
    assert Pow(62, 8) == Pow(62, 4) * Pow(62, 4) by { PowAdd(62, 4, 4); }
    assert Pow(62, 16) == Pow(62, 8) * Pow(62, 8) by { PowAdd(62, 8, 8); }
    assert Pow(62, 20) == Pow(62, 16) * Pow(62, 4) by { PowAdd(62, 16, 4); }
    assert Pow(62, 22) == Pow(62, 20) * Pow(62, 2) by { PowAdd(62, 20, 2); }
  }

  // ---------------------------------------------------------------- base 62

  /** The encoding the `Base62` property promises: the 22 lowest base-62 digits of the value. */
  function Base62(value: U128): (s: string)
    ensures |s| == SizeBase62
  {
    DigitString(BeDigits(62, value, SizeBase62))
  }

  /**
   * The loop of `FromBase62` from an accumulated value `acc` on: each
   * character must be a digit, and each checked step `acc * 62 + p`
   * must stay below 2^128.
   */
  function Accumulate(s: string, acc: U128): Result<U128, IdError> {
    if |s| == 0 then Success(acc)
    else match DigitValue(s[0])
      case None => Failure(InvalidCharacter(s[0]))
      case Some(p) =>
        if acc * 62 + p >= Two128 then Failure(Overflow) else Accumulate(s[1..], acc * 62 + p)
  }

  /** `FromBase62`, as a value: the checks in the order the C# code makes them. */
  function ParseBase62(s: string): Result<SpotifyId, IdError> {
    if |s| == 0 then Failure(NullOrEmpty)
    else if |s| != SizeBase62 then Failure(WrongLength(|s|))
    else match Accumulate(s, 0)
      case Success(v) => Success(SpotifyId(v))
      case Failure(e) => Failure(e)
  }

  lemma DigitValuesCons(s: string)
    requires |s| > 0
    ensures AllDigits(s) <==> DigitValue(s[0]).Some? && AllDigits(s[1..])
    ensures AllDigits(s) ==> DigitValues(s) == [DigitValue(s[0]).value] + DigitValues(s[1..])
  {
    assert forall k :: 0 <= k < |s| - 1 ==> s[1..][k] == s[k + 1];
  }

  /** Prepending digit p to a number of e digits, after an accumulator. */
  lemma Horner(acc: nat, p: nat, pe: nat, v: nat)
    ensures (acc * 62 + p) * pe + v == acc * (62 * pe) + (p * pe + v)
  {
  }

  /** The accumulation succeeds exactly when every character is a digit and the number they spell after `acc` fits in 128 bits. */
  lemma {:induction false} AccumulateValue(s: string, acc: U128)
    ensures Accumulate(s, acc).Success? <==>
      AllDigits(s) && acc * Pow(62, |s|) + BeValue(62, DigitValues(s)) < Two128
    ensures Accumulate(s, acc).Success? ==>
      Accumulate(s, acc).value == acc * Pow(62, |s|) + BeValue(62, DigitValues(s))
  {
    if |s| == 0 {
      assert DigitValues(s) == [];
    } else {
      var rest := s[1..];
      var pe := Pow(62, |rest|);
      assert Pow(62, |s|) == 62 * pe;
      DigitValuesCons(s);
      match DigitValue(s[0])
      case None =>
      case Some(p) =>
        var next := acc * 62 + p;
        if AllDigits(s) {
          BeValuePrepend(62, p, DigitValues(rest));
          Horner(acc, p, pe, BeValue(62, DigitValues(rest)));
          MulLe(1, pe, next);
        }
        if next < Two128 {
          AccumulateValue(rest, next);
        }
    }
  }

  /** `FromBase62` succeeds exactly on 22 base-62 digits spelling a number below 2^128. */
  lemma ParseBase62Success(s: string)
    ensures ParseBase62(s).Success? <==>
      |s| == SizeBase62 && AllDigits(s) && BeValue(62, DigitValues(s)) < Two128
    ensures ParseBase62(s).Success? ==> ParseBase62(s).value.id == BeValue(62, DigitValues(s))
  {
    if |s| == SizeBase62 {
      AccumulateValue(s, 0);
    }
  }

  /** `FromBase62` reads back what `Base62` writes. */
  lemma ParseBase62OfBase62(value: U128)
    ensures ParseBase62(Base62(value)) == Success(SpotifyId(value))
  {
    var ds := BeDigits(62, value, SizeBase62);
    DigitStringValues(ds);
    Base62Capacity();
    BeDigitsValue(62, value, SizeBase62);
    ParseBase62Success(Base62(value));
  }

  /** A parsed id prints back as the text it was parsed from: each id has one base-62 form. */
  lemma Base62OfParseBase62(s: string)
    requires ParseBase62(s).Success?
    ensures Base62(ParseBase62(s).value.id) == s
  {
    ParseBase62Success(s);
    var ds := DigitValues(s);
    BeDigitsUnique(62, ds);
    DigitValuesString(s);
  }

  /** `FromBase62`: the checks, then one checked multiply-add per character. */
  method FromBase62(base62Id: string) returns (r: Result<SpotifyId, IdError>)
    ensures r == ParseBase62(base62Id)
  {
    if |base62Id| == 0 {
      return Failure(NullOrEmpty);
    }
    if |base62Id| != SizeBase62 {
      return Failure(WrongLength(|base62Id|));
    }
    var result: U128 := 0;
    var i := 0;
    while i < |base62Id|
      invariant 0 <= i <= |base62Id|
      invariant Accumulate(base62Id[i..], result) == Accumulate(base62Id, 0)
    {
      var c := base62Id[i];
      assert base62Id[i..][1..] == base62Id[i + 1..];
      match DigitValue(c)
      case None =>
        return Failure(InvalidCharacter(c));
      case Some(p) =>
        if result * 62 + p >= Two128 {
          return Failure(Overflow);
        }
        result := result * 62 + p;
      i := i + 1;
    }
    return Success(SpotifyId(result));
  }

  /** `TryFromBase62`: any failure becomes null. */
  method TryFromBase62(base62Id: string) returns (r: Option<SpotifyId>)
    ensures r == ParseBase62(base62Id).ToOption()
    ensures r.Some? <==> |base62Id| == SizeBase62 && AllDigits(base62Id) && BeValue(62, DigitValues(base62Id)) < Two128
  {
    var parsed := FromBase62(base62Id);
    ParseBase62Success(base62Id);
    r := parsed.ToOption();
  }

  /** The low 32 bits of `value >> shift`, after what lies above them, make `value >> shift`. */
  lemma ChunkSplit(value: U128, shift: nat, high: nat)
    requires high == value / Pow(2, shift + 32)
    ensures high * 0x1_0000_0000 + (value / Pow(2, shift)) % 0x1_0000_0000 == value / Pow(2, shift)
    ensures value / Pow(2, shift) <= value
  {
    PowersOf2();
    PowAdd(2, shift, 32);
    DivDiv(value, Pow(2, shift), 0x1_0000_0000);
    DivisionIdentity(value / Pow(2, shift), 0x1_0000_0000);
    DivisionIdentity(value, Pow(2, shift));
    MulLe(1, Pow(2, shift), value / Pow(2, shift));
  }

  /**
   * The arithmetic of one pass of the inner loop of `ToBase62`, over
   * `l` = the new digits so far, `p` = 62^j, `lt` = the old digits from j on
   * (`b` and then `rest`), `t` = the carry with `b` folded in, and `l'`,
   * `p'` = the digits and weight after the pass.
   */
  lemma CarryArith(l: nat, p: nat, c: nat, lt: nat, b: nat, rest: nat, t: nat, target: nat, l': nat, p': nat)
    requires b < 62 && c < 0x1_0000_0000 && lt == b + 62 * rest && t == c + b * 0x1_0000_0000
    requires l + p * (c + 0x1_0000_0000 * lt) == target
    requires l' == l + p * (t % 62) && p' == p * 62
    ensures t / 62 < 0x1_0000_0000
    ensures l' + p' * (t / 62 + 0x1_0000_0000 * rest) == target
  {
    QuotientBound(t, 62, 0x1_0000_0000);
    DivisionIdentity(t, 62);
    var q, r := t / 62, t % 62;
    assert c + 0x1_0000_0000 * lt == t + 62 * (0x1_0000_0000 * rest);
    Distrib(p, t, 62 * (0x1_0000_0000 * rest));
    assert t == 62 * q + r;
    Distrib(p, 62 * q, r);
    Distrib(p * 62, q, 0x1_0000_0000 * rest);
    Assoc(p, 62, q);
    Assoc(p, 62, 0x1_0000_0000 * rest);
  }

  /** The arithmetic of one pass of the carry-out loop of `ToBase62`. */
  lemma SpillArith(l: nat, p: nat, carry: nat, target: nat, l': nat, p': nat)
    requires l + p * carry == target
    requires l' == l + p * (carry % 62) && p' == p * 62
    ensures l' + p' * (carry / 62) == target
  {
    DivisionIdentity(carry, 62);
    Distrib(p, 62 * (carry / 62), carry % 62);
    Assoc(p, 62, carry / 62);
    assert carry == 62 * (carry / 62) + carry % 62;
  }

  /**
   * The value held during the inner loop of `ToBase62`: the new digits
   * `done`, followed by one digit the size of the pending amount, which is
   * the carry plus the old digits `rest` shifted up by 32 bits.
   */
  ghost function Pending(done: seq<nat>, carry: nat, rest: seq<nat>): nat {
    LeValue(62, done + [carry + 0x1_0000_0000 * LeValue(62, rest)])
  }

  /**
   * One pass of the inner loop of `ToBase62`. The buffer holds new digits
   * `prefix` and old digits `tail`; folding the next old digit into the
   * carry `c` (giving `t`) keeps the value of new digits followed by the
   * pending amount, and keeps the carry below 2^32.
   */
  lemma CarryPass(prefix: seq<nat>, tail: seq<nat>, c: nat, t: nat, target: nat)
    requires |tail| > 0 && tail[0] < 62 && c < 0x1_0000_0000 && t == c + tail[0] * 0x1_0000_0000
    requires Pending(prefix, c, tail) == target
    ensures t / 62 < 0x1_0000_0000
    ensures Pending(prefix + [t % 62], t / 62, tail[1..]) == target
  {
    var p := Pow(62, |prefix|);
    var l := LeValue(62, prefix);
    var lt := LeValue(62, tail);
    var rest := LeValue(62, tail[1..]);
    assert lt == tail[0] + 62 * rest;
    LeValueSnoc(62, prefix, c + 0x1_0000_0000 * lt);
    LeValueSnoc(62, prefix, t % 62);
    var l' := LeValue(62, prefix + [t % 62]);
    var p' := Pow(62, |prefix| + 1);
    assert l' == l + p * (t % 62);
    assert p' == p * 62;
    CarryArith(l, p, c, lt, tail[0], rest, t, target, l', p');
    LeValueSnoc(62, prefix + [t % 62], t / 62 + 0x1_0000_0000 * rest);
  }

  /** While a carry remains in the carry-out loop of `ToBase62`, the buffer has room for its digit. */
  lemma SpillRoom(prefix: seq<nat>, carry: nat, target: nat)
    requires carry > 0 && target < Two128
    requires LeValue(62, prefix + [carry]) == target
    ensures |prefix| < SizeBase62
  {
    var p := Pow(62, |prefix|);
    var l := LeValue(62, prefix);
    LeValueSnoc(62, prefix, carry);
    AtLeastWeight(l, p, carry);
    if |prefix| >= SizeBase62 {
      Base62Capacity();
      PowMonotone(62, SizeBase62, |prefix|);
      assert false;
    }
  }

  lemma AtLeastWeight(l: nat, p: nat, d: nat)
    requires d > 0
    ensures p <= l + p * d
  {
    MulLe(1, d, p);
  }

  /** One pass of the carry-out loop of `ToBase62`: the next digit of the carry moves into the buffer. */
  lemma SpillPass(prefix: seq<nat>, carry: nat, target: nat)
    requires LeValue(62, prefix + [carry]) == target
    ensures LeValue(62, prefix + [carry % 62] + [carry / 62]) == target
  {
    var p := Pow(62, |prefix|);
    var l := LeValue(62, prefix);
    LeValueSnoc(62, prefix, carry);
    LeValueSnoc(62, prefix, carry % 62);
    var l' := LeValue(62, prefix + [carry % 62]);
    var p' := Pow(62, |prefix| + 1);
    assert l' == l + p * (carry % 62);
    assert p' == p * 62;
    SpillArith(l, p, carry, target, l', p');
    LeValueSnoc(62, prefix + [carry % 62], carry / 62);
  }

  /**
   * The inner loop of `ToBase62`: multiplies the little-endian base-62
   * number in `tmp[..i]` by 2^32 and adds the next 32-bit chunk, digit by
   * digit from the least significant; what does not fit is the carry.
   */
  method FoldChunk(tmp: array<byte>, i: nat, chunk: U64) returns (carry: U64)
    requires tmp.Length == SizeBase62 && i <= SizeBase62 && chunk < 0x1_0000_0000
    requires forall k :: 0 <= k < SizeBase62 ==> tmp[k] < 62
    modifies tmp
    ensures forall k :: 0 <= k < SizeBase62 ==> tmp[k] < 62
    ensures forall k :: i <= k < SizeBase62 ==> tmp[k] == old(tmp[k])
    ensures LeValue(62, tmp[..i] + [carry]) == LeValue(62, old(tmp[..i])) * 0x1_0000_0000 + chunk
  {
    ghost var before := tmp[..i];
    ghost var target := LeValue(62, before) * 0x1_0000_0000 + chunk;
    carry := chunk;
    ghost var done: seq<nat>, rest: seq<nat> := [], before;
    assert Pending(done, carry, rest) == target by {
      var one := [carry + 0x1_0000_0000 * LeValue(62, rest)];
      assert done + one == one && one[1..] == [];
      assert LeValue(62, one) == one[0];
    }
    var j := 0;
    while j < i
      invariant 0 <= j <= i
      invariant carry < 0x1_0000_0000
      invariant tmp[..j] == done && rest == before[j..]
      invariant forall k :: j <= k < SizeBase62 ==> tmp[k] == old(tmp[k])
      invariant forall k :: 0 <= k < SizeBase62 ==> tmp[k] < 62
      invariant Pending(done, carry, rest) == target
    {
      ghost var c := carry;
      assert rest[0] == tmp[j] && rest[1..] == before[j + 1..];
      carry := carry + (tmp[j] as nat) * 0x1_0000_0000;
      CarryPass(done, rest, c, carry, target);
      tmp[j] := carry % 62;
      done, rest := done + [carry % 62], rest[1..];
      carry := carry / 62;
      j := j + 1;
    }
    assert Pending(done, carry, rest) == LeValue(62, tmp[..i] + [carry]) by {
      assert done + [carry + 0x1_0000_0000 * LeValue(62, rest)] == tmp[..i] + [carry];
    }
  }

  /** The carry-out loop of `ToBase62`: appends the digits of the carry to `tmp[..i]`. */
  method SpillCarry(tmp: array<byte>, i: nat, carry: U64, ghost target: nat) returns (n: nat)
    requires tmp.Length == SizeBase62 && i <= SizeBase62 && target < Two128
    requires forall k :: 0 <= k < SizeBase62 ==> tmp[k] < 62
    requires forall k :: i <= k < SizeBase62 ==> tmp[k] == 0
    requires LeValue(62, tmp[..i] + [carry]) == target
    modifies tmp
    ensures i <= n <= SizeBase62
    ensures forall k :: 0 <= k < SizeBase62 ==> tmp[k] < 62
    ensures forall k :: n <= k < SizeBase62 ==> tmp[k] == 0
    ensures LeValue(62, tmp[..n]) == target
  {
    n := i;
    var rest := carry;
    while rest > 0
      invariant i <= n <= SizeBase62
      invariant forall k :: 0 <= k < SizeBase62 ==> tmp[k] < 62
      invariant forall k :: n <= k < SizeBase62 ==> tmp[k] == 0
      invariant LeValue(62, tmp[..n] + [rest]) == target
      decreases rest
    {
      ghost var prefix := tmp[..n];
      SpillRoom(prefix, rest, target);
      SpillPass(prefix, rest, target);
      tmp[n] := rest % 62;
      rest := rest / 62;
      assert tmp[..n + 1] == prefix + [tmp[n]];
      n := n + 1;
    }
    LeValueSnoc(62, tmp[..n], 0);
  }

  /** The digit-to-character loop of `ToBase62`: each digit becomes the code of its character. */
  method MapToAlphabet(tmp: array<byte>)
    requires forall k :: 0 <= k < tmp.Length ==> tmp[k] < 62
    modifies tmp
    ensures forall k :: 0 <= k < tmp.Length ==> tmp[k] == Base62Alphabet[old(tmp[k])] as int
  {
    ghost var digits := tmp[..];
    for j := 0 to tmp.Length
      invariant forall k :: 0 <= k < j ==> tmp[k] == Base62Alphabet[digits[k]] as int
      invariant forall k :: j <= k < tmp.Length ==> tmp[k] == digits[k]
    {
      AlphabetAt(tmp[j]);
      tmp[j] := Base62Alphabet[tmp[j]] as int;
    }
  }

  /**
   * `ToBase62`: schoolbook conversion, feeding the value 32 bits at a time
   * into a little-endian buffer of base-62 digits, then mapping digits to
   * characters and reversing the buffer.
   */
  method ToBase62(value: U128) returns (s: string)
    ensures s == Base62(value)
  {
    var tmp := new byte[SizeBase62](_ => 0);
    var i := 0;
    var shift := 96;
    assert LeValue(62, tmp[..i]) == value / Pow(2, shift + 32) by {
      PowersOf2();
    }
    while shift >= 0
      invariant shift == 96 || shift == 64 || shift == 32 || shift == 0 || shift == -32
      invariant 0 <= i <= SizeBase62
      invariant forall k :: 0 <= k < SizeBase62 ==> tmp[k] < 62
      invariant forall k :: i <= k < SizeBase62 ==> tmp[k] == 0
      invariant LeValue(62, tmp[..i]) == value / Pow(2, shift + 32)
      decreases shift + 32
    {
      i := AddChunk(tmp, i, value, shift);
      shift := shift - 32;
    }
    assert Pow(2, shift + 32) == 1;
    LeValueZeroTail(62, tmp[..], i);
    assert tmp[..][..i] == tmp[..i];
    s := DigitsToText(tmp, value);
  }

  /**
   * One pass of the outer loop of `ToBase62`: the buffer, holding the
   * digits of the bits of `value` above `shift + 32`, takes in the 32 bits
   * from `shift` on and then holds the digits of the bits above `shift`.
   */
  method AddChunk(tmp: array<byte>, i: nat, value: U128, shift: nat) returns (n: nat)
    requires tmp.Length == SizeBase62 && i <= SizeBase62
    requires forall k :: 0 <= k < SizeBase62 ==> tmp[k] < 62
    requires forall k :: i <= k < SizeBase62 ==> tmp[k] == 0
    requires LeValue(62, tmp[..i]) == value / Pow(2, shift + 32)
    modifies tmp
    ensures i <= n <= SizeBase62
    ensures forall k :: 0 <= k < SizeBase62 ==> tmp[k] < 62
    ensures forall k :: n <= k < SizeBase62 ==> tmp[k] == 0
    ensures LeValue(62, tmp[..n]) == value / Pow(2, shift)
  {
    var carry: U64 := (value / Pow(2, shift)) % 0x1_0000_0000;
    ghost var high := LeValue(62, tmp[..i]);
    ghost var target := value / Pow(2, shift);
    ChunkSplit(value, shift, high);
    assert high * 0x1_0000_0000 + carry == target < Two128;
    carry := FoldChunk(tmp, i, carry);
    n := SpillCarry(tmp, i, carry, target);
  }

  /** The end of `ToBase62`: digits to characters, the buffer reversed, then read as ASCII. */
  method DigitsToText(tmp: array<byte>, ghost value: U128) returns (s: string)
    requires tmp.Length == SizeBase62
    requires forall k :: 0 <= k < SizeBase62 ==> tmp[k] < 62
    requires LeValue(62, tmp[..]) == value
    modifies tmp
    ensures s == Base62(value)
  {
    ghost var digits := tmp[..];
    MapToAlphabet(tmp);
    ghost var mapped := tmp[..];
    ReverseInPlace(tmp);
    s := Text.AsciiDecode(tmp[..]);
    TextOfDigitBuffer(digits, mapped, tmp[..], value);
  }

  /**
   * The last steps of `ToBase62`: little-endian digits of the value, mapped
   * to the codes of their characters and reversed, read as ASCII, are the
   * base-62 text of the value.
   */
  lemma TextOfDigitBuffer(digits: seq<byte>, mapped: seq<byte>, reversed: seq<byte>, value: U128)
    requires |digits| == SizeBase62 && |mapped| == SizeBase62
    requires forall k :: 0 <= k < SizeBase62 ==> digits[k] < 62
    requires forall k :: 0 <= k < SizeBase62 ==> mapped[k] == Base62Alphabet[digits[k]] as int
    requires LeValue(62, digits) == value
    requires reversed == Reversed(mapped)
    ensures Text.AsciiDecode(reversed) == Base62(value)
  {
    var be: seq<nat> := Reversed(digits);
    ReversedBytes(digits, digits);
    BeValueReversed(62, digits);
    assert DigitsBelow(be, 62) by {
      forall k | 0 <= k < SizeBase62 ensures be[k] < 62 {
        ReversedAt(digits, k);
      }
    }
    BeDigitsUnique(62, be);
    var s := Text.AsciiDecode(reversed);
    forall k | 0 <= k < SizeBase62
      ensures s[k] == Base62(value)[k]
    {
      ReversedAt(mapped, k);
      ReversedAt(digits, k);
      AlphabetAt(digits[SizeBase62 - 1 - k]);
    }
  }

  // ---------------------------------------------------------------- bytes

  /** The 16 big-endian bytes of a value: the protocol's form of an id. */
  function BigEndianBytes(value: U128): (bytes: seq<byte>)
    ensures |bytes| == Size
  {
    BeDigits(256, value, Size)
  }

  /** `FromByteArray`, as a value: exactly 16 bytes, read big-endian. */
  function FromBytes(bytes: seq<byte>): (r: Result<SpotifyId, IdError>)
    ensures r.Success? <==> |bytes| == Size
  {
    if |bytes| != Size then Failure(WrongByteCount(|bytes|))
    else
      assert BeValue(256, bytes) < Two128 by {
        BeValueBound(256, bytes);
        PowersOf256();
      }
      Success(SpotifyId(BeValue(256, bytes)))
  }

  /** `BitConverter.ToUInt128`: reads 16 bytes in the host's byte order. */
  function HostUInt128(bytes: seq<byte>, hostIsLittleEndian: bool): nat {
    if hostIsLittleEndian then LeValue(256, bytes) else BeValue(256, bytes)
  }

  /** `BitConverter.GetBytes(UInt128)`: the 16 bytes of a value in the host's byte order. */
  function HostBytes(value: U128, hostIsLittleEndian: bool): (bytes: seq<byte>)
    ensures |bytes| == Size
  {
    if hostIsLittleEndian then Reversed(BigEndianBytes(value)) else BigEndianBytes(value)
  }

  /** Bytes decode to the value whose big-endian bytes they are, and back. */
  lemma FromBytesOfBigEndianBytes(value: U128)
    ensures FromBytes(BigEndianBytes(value)) == Success(SpotifyId(value))
  {
    PowersOf256();
    BeDigitsValue(256, value, Size);
  }

  lemma BigEndianBytesOfFromBytes(bytes: seq<byte>)
    requires FromBytes(bytes).Success?
    ensures BigEndianBytes(FromBytes(bytes).value.id) == bytes
  {
    BeDigitsUnique(256, bytes);
  }

  /**
   * `FromByteArray`: on a little-endian host, copies the bytes, reverses the
   * copy and reads it in host order; on a big-endian host reads them
   * directly. Either way the id is the big-endian reading of the bytes.
   */
  method FromByteArray(bytes: seq<byte>, hostIsLittleEndian: bool) returns (r: Result<SpotifyId, IdError>)
    ensures r == FromBytes(bytes)
  {
    if |bytes| != Size {
      return Failure(WrongByteCount(|bytes|));
    }
    var value: nat;
    if hostIsLittleEndian {
      var reversed := new byte[Size](k requires 0 <= k < Size => bytes[k]);
      assert reversed[..] == bytes;
      ReverseInPlace(reversed);
      value := HostUInt128(reversed[..], hostIsLittleEndian);
      ReversedBytes(bytes, bytes);
      LeValueReversed(256, bytes);
    } else {
      value := HostUInt128(bytes, hostIsLittleEndian);
    }
    assert value == BeValue(256, bytes);
    assert value < Two128 by {
      BeValueBound(256, bytes);
      PowersOf256();
    }
    return Success(SpotifyId(value));
  }

  /** `TryFromByteArray`: any failure becomes null. */
  method TryFromByteArray(bytes: seq<byte>, hostIsLittleEndian: bool) returns (r: Option<SpotifyId>)
    ensures r == FromBytes(bytes).ToOption()
    ensures r.Some? <==> |bytes| == Size
  {
    var parsed := FromByteArray(bytes, hostIsLittleEndian);
    r := parsed.ToOption();
  }

  /** The encoding the `Base16` property promises: 32 lower-case hex digits of the big-endian bytes. */
  function Base16(value: U128): (s: string)
    ensures |s| == 2 * Size && Hex.IsLowerHex(s)
  {
    Hex.ToHexLower(BigEndianBytes(value))
  }

  /** The hex form reads back to the big-endian bytes, and from them to the id. */
  lemma Base16RoundTrip(value: U128)
    ensures Hex.FromHex(Base16(value)) == Success(BigEndianBytes(value))
    ensures FromBytes(Hex.FromHex(Base16(value)).value) == Success(SpotifyId(value))
  {
    Hex.FromHexToHex(BigEndianBytes(value));
    FromBytesOfBigEndianBytes(value);
  }

  /** `ToBase16`: the host-order bytes, reversed on a little-endian host, in lower-case hex. */
  method ToBase16(value: U128, hostIsLittleEndian: bool) returns (s: string)
    ensures s == Base16(value)
  {
    var host := HostBytes(value, hostIsLittleEndian);
    var bytes := new byte[Size](k requires 0 <= k < Size => host[k]);
    assert bytes[..] == host;
    if hostIsLittleEndian {
      ReverseInPlace(bytes);
      ReversedTwice(BigEndianBytes(value));
    }
    s := Hex.ToHexLower(bytes[..]);
  }

  lemma ReversedTwice<T>(s: seq<T>)
    ensures Reversed(Reversed(s)) == s
  {
    forall k | 0 <= k < |s| ensures Reversed(Reversed(s))[k] == s[k] {
      ReversedAt(Reversed(s), k);
      ReversedAt(s, |s| - 1 - k);
    }
  }
}
