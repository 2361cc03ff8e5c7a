/**
 * A file id: the 20-byte id of an image asset, written as 40 lower-case
 * hex characters. It is built from the bytes the metadata protocol
 * carries or parsed back from its hex form.
 */
module FileIds {
  import opened Wrappers
  import opened Positional
  import Hex

  const Size: nat := 20
  const SizeBase16: nat := 40

  /** The id bytes; every constructor gives exactly `Size` of them. */
  datatype FileId = FileId(id: seq<byte>)

  /** The exceptions of the string constructor. */
  datatype FileIdError =
    | NullOrEmpty
    | WrongLength(length: nat)
    | FormatError

  /**
   * The 20 bytes every byte constructor yields: an input of at most 20 bytes
   * followed by zeros, and for a longer input 20 zeros (it is not copied).
   */
  function Padded(bytes: seq<byte>): (id: seq<byte>)
    ensures |id| == Size
    ensures |bytes| <= Size ==> id[..|bytes|] == bytes && forall k :: |bytes| <= k < Size ==> id[k] == 0
    ensures |bytes| > Size ==> forall k :: 0 <= k < Size ==> id[k] == 0
  {
    if |bytes| <= Size then bytes + seq(Size - |bytes|, _ => 0) else seq(Size, _ => 0)
  }

  /** `FromByteArray`: a zeroed 20-byte array, into which a short enough input is copied. */
  method FromByteArray(bytes: seq<byte>) returns (ret: array<byte>)
    ensures fresh(ret) && ret[..] == Padded(bytes)
  {
    ret := new byte[Size](_ => 0);
    if |bytes| <= Size {
      for i := 0 to |bytes|
        invariant ret[..i] == bytes[..i]
        invariant forall k :: |bytes| <= k < Size ==> ret[k] == 0
      {
        ret[i] := bytes[i];
      }
    }
  }

  /** The constructor from a byte span (and from a protocol `ByteString`, which reads its span). */
  method FromBytes(bytes: seq<byte>) returns (f: FileId)
    ensures f == FileId(Padded(bytes))
  {
    var ret := FromByteArray(bytes);
    f := FileId(ret[..]);
  }

  /** `FromBase16`: the checks of the C# code, then `Convert.FromHexString`. */
  function FromBase16(base16Id: string): (r: Result<seq<byte>, FileIdError>)
  {
    if |base16Id| == 0 then Failure(NullOrEmpty)
    else if |base16Id| != SizeBase16 then Failure(WrongLength(|base16Id|))
    else match Hex.FromHex(base16Id)
      case Success(bytes) => Success(bytes)
      case Failure(_) => Failure(FormatError)
  }

  /** The constructor from a string. */
  function Parse(base16Id: string): Result<FileId, FileIdError> {
    match FromBase16(base16Id)
    case Success(bytes) => Success(FileId(bytes))
    case Failure(e) => Failure(e)
  }

  /** The `Base16` property: `Convert.ToHexStringLower` of the id bytes. */
  function Base16(f: FileId): (s: string)
    ensures |s| == 2 * |f.id| && Hex.IsLowerHex(s)
  {
    Hex.ToHexLower(f.id)
  }

  /**
   * The string constructor accepts exactly the 40-character strings of hex
   * digits (of either case), and then holds 20 bytes; its errors are
   * those of the C# code, in the same order.
   */
  lemma FromBase16Accepts(s: string)
    ensures FromBase16(s).Success? <==> |s| == SizeBase16 && forall k :: 0 <= k < |s| ==> Hex.NibbleValue(s[k]).Some?
    ensures FromBase16(s).Success? ==> |FromBase16(s).value| == Size
    ensures |s| == 0 ==> FromBase16(s) == Failure(NullOrEmpty)
    ensures 0 < |s| != SizeBase16 ==> FromBase16(s) == Failure(WrongLength(|s|))
  {
    Hex.FromHexSuccess(s);
  }

  /** Every file id of 20 bytes comes back from its hex form. */
  lemma ParseBase16(f: FileId)
    requires |f.id| == Size
    ensures Parse(Base16(f)) == Success(f)
  {
    Hex.FromHexToHex(f.id);
  }

  /** For lower-case input the hex form of a parsed id is the input itself. */
  lemma Base16Parse(s: string)
    requires Hex.IsLowerHex(s) && Parse(s).Success?
    ensures Base16(Parse(s).value) == s
  {
    Hex.ToHexFromHex(s);
  }
}
