/**
 * The fallback branch of `readAsString`: when no `TextDecoder` exists, the
 * buffer is read one unsigned byte at a time through a `DataView`, every byte
 * becomes one char code, and `String.fromCharCode` turns the codes into a
 * string. The result is the Latin-1 reading of the bytes, whatever encoding
 * the caller asked for.
 */
module FallbackDecoder {

  /** One byte of an `ArrayBuffer`, as `DataView.getUint8` returns it. */
  newtype byte = b: int | 0 <= b < 256

  /** Each character is one byte wide on this path. */
  const CharSize := 1

  /** True when every char code fits in one byte. */
  predicate SingleByteCodes(codes: seq<int>) {
    forall i :: 0 <= i < |codes| ==> 0 <= codes[i] < 256
  }

  /** True when every character of `s` has a code below 256. */
  predicate SingleByteText(s: string) {
    forall i :: 0 <= i < |s| ==> s[i] as int < 256
  }

  /** The char codes the fallback loop collects: one per byte, in buffer order. */
  function CharCodes(bytes: seq<byte>): (codes: seq<int>)
    ensures |codes| == |bytes|
    ensures forall i :: 0 <= i < |bytes| ==> codes[i] == bytes[i] as int
    ensures SingleByteCodes(codes)
  {
    if bytes == [] then [] else [bytes[0] as int] + CharCodes(bytes[1..])
  }

  /**
   * `String.fromCharCode` applied to a list of codes, for the codes this path
   * produces (0 to 255): the string whose character i has code `codes[i]`.
   */
  function FromCharCodes(codes: seq<int>): (s: string)
    requires SingleByteCodes(codes)
    ensures |s| == |codes|
    ensures forall i :: 0 <= i < |codes| ==> s[i] as int == codes[i]
  {
    if codes == [] then [] else [codes[0] as char] + FromCharCodes(codes[1..])
  }

  /** The string the fallback path returns for a buffer holding `bytes`. */
  function Latin1Decode(bytes: seq<byte>): (s: string)
    ensures |s| == |bytes|
    ensures forall i :: 0 <= i < |bytes| ==> s[i] as int == bytes[i] as int
    ensures SingleByteText(s)
  {
    FromCharCodes(CharCodes(bytes))
  }

  /** The inverse reading: the bytes whose Latin-1 decoding is `s`. */
  function Latin1Encode(s: string): (bytes: seq<byte>)
    requires SingleByteText(s)
    ensures |bytes| == |s|
    ensures forall i :: 0 <= i < |s| ==> bytes[i] as int == s[i] as int
  {
    if s == [] then [] else [s[0] as int as byte] + Latin1Encode(s[1..])
  }

  /** Decoding loses nothing: the bytes can be recovered from the text. */
  lemma DecodeThenEncode(bytes: seq<byte>)
    ensures Latin1Encode(Latin1Decode(bytes)) == bytes
  {
  }

  /** Every single-byte text is the decoding of some buffer. */
  lemma EncodeThenDecode(s: string)
    requires SingleByteText(s)
    ensures Latin1Decode(Latin1Encode(s)) == s
  {
  }

  /** Two buffers decode to the same text only if they hold the same bytes. */
  lemma DecodeInjective(a: seq<byte>, b: seq<byte>)
    requires Latin1Decode(a) == Latin1Decode(b)
    ensures a == b
  {
    DecodeThenEncode(a);
    DecodeThenEncode(b);
  }

  /**
   * The loop of the fallback branch: read byte `i * CharSize` for every
   * `i < byteLength`, push it as a char code, then build the string.
   */
  method DecodeFallback(buffer: array<byte>) returns (s: string)
    ensures |s| == buffer.Length
    ensures forall i :: 0 <= i < buffer.Length ==> s[i] as int == buffer[i] as int
    ensures s == Latin1Decode(buffer[..])
  {
    var charCount := buffer.Length;
    var charCodes: seq<int> := [];
    for i := 0 to charCount
      invariant |charCodes| == i
      invariant forall k :: 0 <= k < i ==> charCodes[k] == buffer[k] as int
    {
      var charCode := buffer[i * CharSize] as int;
      charCodes := charCodes + [charCode];
    }
    assert charCodes == CharCodes(buffer[..]);
    s := FromCharCodes(charCodes);
  }
}
