/**
 * Base16 (section 8 of RFC 4648) over bytes, as Go's encoding/hex does it:
 * the decoder accepts both letter cases, scans the input two bytes at a
 * time, reports the first byte that is not a hex digit, and reports an odd
 * length only when every byte is a hex digit. The encoder writes lower case.
 */
module Hex {
  import opened Discord

  datatype DecodeError = InvalidByte(b: byte) | OddLength

  datatype DecodeResult = Decoded(bytes: seq<byte>) | Failed(error: DecodeError)

  predicate IsHexDigit(b: byte)
  {
    '0' as int <= b <= '9' as int || 'a' as int <= b <= 'f' as int || 'A' as int <= b <= 'F' as int
  }

  function DigitValue(b: byte): (v: nat)
    requires IsHexDigit(b)
    ensures v < 16
  {
    if b <= '9' as int then b - '0' as int
    else if b >= 'a' as int then b - 'a' as int + 10
    else b - 'A' as int + 10
  }

  /** The lower-case digit for `v`. */
  function LowerDigit(v: nat): (b: byte)
    requires v < 16
    ensures IsHexDigit(b) && DigitValue(b) == v
  {
    if v < 10 then '0' as int + v else 'a' as int + v - 10
  }

  /** The upper-case digit for `v`. */
  function UpperDigit(v: nat): (b: byte)
    requires v < 16
    ensures IsHexDigit(b) && DigitValue(b) == v
  {
    if v < 10 then '0' as int + v else 'A' as int + v - 10
  }

  /** Decodes `src`, or names the error the Go decoder reports for it. */
  function Decode(src: seq<byte>): DecodeResult
    decreases |src|
  {
    if |src| == 0 then Decoded([])
    else if |src| == 1 then
      if !IsHexDigit(src[0]) then Failed(InvalidByte(src[0])) else Failed(OddLength)
    else if !IsHexDigit(src[0]) then Failed(InvalidByte(src[0]))
    else if !IsHexDigit(src[1]) then Failed(InvalidByte(src[1]))
    else match Decode(src[2..])
      case Decoded(rest) => Decoded([DigitValue(src[0]) * 16 + DigitValue(src[1])] + rest)
      case Failed(e) => Failed(e)
  }

  function Encode(data: seq<byte>): seq<byte>
  {
    if data == [] then [] else [LowerDigit(data[0] / 16), LowerDigit(data[0] % 16)] + Encode(data[1..])
  }

  function EncodeUpper(data: seq<byte>): seq<byte>
  {
    if data == [] then [] else [UpperDigit(data[0] / 16), UpperDigit(data[0] % 16)] + EncodeUpper(data[1..])
  }

  /** Go's strconv.IsPrint restricted to code points below 256. */
  predicate IsPrintable(b: byte)
  {
    (0x20 <= b <= 0x7E) || (0xA1 <= b <= 0xFF && b != 0xAD)
  }

  /** The text of a decoding error; an invalid byte is shown in Go's %#U notation. */
  function ErrorText(e: DecodeError): string
  {
    match e
    case OddLength => "encoding/hex: odd length hex string"
    case InvalidByte(b) =>
      "encoding/hex: invalid byte: U+00" + [UpperDigit(b / 16) as char, UpperDigit(b % 16) as char] +
      (if IsPrintable(b) then " '" + [b as char] + "'" else "")
  }

  /** The encoder's output is hex digits only, two per byte. */
  lemma {:induction false} EncodeIsHex(data: seq<byte>)
    ensures |Encode(data)| == 2 * |data|
    ensures forall k :: 0 <= k < |Encode(data)| ==> IsHexDigit(Encode(data)[k])
  {
    if data != [] {
      EncodeIsHex(data[1..]);
    }
  }

  /** Decoding what was encoded gives the bytes back. */
  lemma {:induction false} DecodeEncode(data: seq<byte>)
    ensures Decode(Encode(data)) == Decoded(data)
  {
    if data != [] {
      var e := Encode(data);
      assert e[2..] == Encode(data[1..]);
      DecodeEncode(data[1..]);
      assert DigitValue(e[0]) * 16 + DigitValue(e[1]) == data[0];
      assert [data[0]] + data[1..] == data;
    }
  }

  /** Upper-case digits decode the same as lower-case ones. */
  lemma {:induction false} DecodeEncodeUpper(data: seq<byte>)
    ensures Decode(EncodeUpper(data)) == Decoded(data)
  {
    if data != [] {
      var e := EncodeUpper(data);
      assert e[2..] == EncodeUpper(data[1..]);
      DecodeEncodeUpper(data[1..]);
      assert DigitValue(e[0]) * 16 + DigitValue(e[1]) == data[0];
      assert [data[0]] + data[1..] == data;
    }
  }

  /** Decoding succeeds exactly on even-length inputs made of hex digits, and halves the length. */
  lemma {:induction false} DecodeSucceedsIff(src: seq<byte>)
    ensures Decode(src).Decoded? <==> |src| % 2 == 0 && forall k :: 0 <= k < |src| ==> IsHexDigit(src[k])
    ensures Decode(src).Decoded? ==> 2 * |Decode(src).bytes| == |src|
    decreases |src|
  {
    if |src| >= 2 {
      DecodeSucceedsIff(src[2..]);
      assert forall k :: 2 <= k < |src| ==> src[k] == src[2..][k - 2];
    }
  }

  /**
   * Each decoded byte comes from one pair of input digits, high nibble first,
   * whatever the case of each digit.
   */
  lemma {:induction false} DecodePairs(src: seq<byte>)
    ensures Decode(src).Decoded? ==>
              forall k :: 0 <= k < |Decode(src).bytes| ==>
                2 * k + 1 < |src| && IsHexDigit(src[2 * k]) && IsHexDigit(src[2 * k + 1]) &&
                Decode(src).bytes[k] == 16 * DigitValue(src[2 * k]) + DigitValue(src[2 * k + 1])
    decreases |src|
  {
    if |src| >= 2 && IsHexDigit(src[0]) && IsHexDigit(src[1]) {
      var tail := src[2..];
      DecodePairs(tail);
      if Decode(src).Decoded? {
        var bytes := Decode(src).bytes;
        assert bytes[1..] == Decode(tail).bytes;
        forall k | 1 <= k < |bytes|
          ensures 2 * k + 1 < |src| && IsHexDigit(src[2 * k]) && IsHexDigit(src[2 * k + 1]) &&
                  bytes[k] == 16 * DigitValue(src[2 * k]) + DigitValue(src[2 * k + 1])
        {
          assert bytes[k] == Decode(tail).bytes[k - 1];
          assert tail[2 * (k - 1)] == src[2 * k] && tail[2 * (k - 1) + 1] == src[2 * k + 1];
        }
      }
    }
  }

  /** The error reported is the first byte that is not a hex digit, wherever it is. */
  lemma {:induction false} DecodeReportsFirstInvalidByte(src: seq<byte>, j: nat)
    requires j < |src| && !IsHexDigit(src[j])
    requires forall k :: 0 <= k < j ==> IsHexDigit(src[k])
    ensures Decode(src) == Failed(InvalidByte(src[j]))
    decreases |src|
  {
    if j >= 2 {
      DecodeReportsFirstInvalidByte(src[2..], j - 2);
    }
  }

  /** An odd-length input of hex digits is reported as such. */
  lemma {:induction false} DecodeOddLength(src: seq<byte>)
    requires |src| % 2 == 1
    requires forall k :: 0 <= k < |src| ==> IsHexDigit(src[k])
    ensures Decode(src) == Failed(OddLength)
    decreases |src|
  {
    if |src| > 1 {
      DecodeOddLength(src[2..]);
    }
  }
}
