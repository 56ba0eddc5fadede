/**
 * PKCS#7 padding (section 6.3 of RFC 5652): the message is extended with
 * `n` bytes of value `n`, `1 <= n <= blockSize`, up to a multiple of the
 * block size; unpadding reads `n` from the last byte and drops that many
 * bytes.
 */
module Padding {

  /** `pkcs7Pad`: appends `blockSize - |text| % blockSize` copies of that
      count. */
  function Pad(text: seq<bv8>, blockSize: int): (r: seq<bv8>)
    requires 0 < blockSize < 256
  {
    var padLength := blockSize - |text| % blockSize;
    text + seq(padLength, _ => padLength as bv8)
  }

  /** JavaScript's `s.slice(0, end)` for a whole-number `end`: a negative
      end counts back from the end of `s`, and the result is clamped to
      `s`. */
  function SliceTo(s: seq<bv8>, end: int): (r: seq<bv8>)
    ensures |r| <= |s| && r == s[..|r|]
    ensures 0 <= end <= |s| ==> |r| == end
    ensures end < 0 && |s| + end >= 0 ==> |r| == |s| + end
  {
    if end < 0 then
      if |s| + end >= 0 then s[..|s| + end] else []
    else if end <= |s| then s[..end]
    else s
  }

  /** `pkcs7Unpad`: drops as many bytes as the last byte says. It trusts
      that byte: an empty text reads it as `NaN`, and `slice(0, NaN)` is
      empty; a count larger than the text slices to a negative end. */
  function Unpad(text: seq<bv8>): (r: seq<bv8>)
    ensures |r| <= |text| && r == text[..|r|]
  {
    if |text| == 0 then []
    else
      var padLength := text[|text| - 1] as int;
      SliceTo(text, |text| - padLength)
  }

  // ---------------------------------------------------------------------
  // Properties.

  /** The padded text is the text followed by `n` copies of `n`, for some
      `n` between 1 and the block size, and fills one block more than the
      whole blocks of the text. */
  lemma PadShape(text: seq<bv8>, blockSize: int)
    requires 0 < blockSize < 256
    ensures var r := Pad(text, blockSize);
      var n := |r| - |text|;
      1 <= n <= blockSize && |r| == blockSize * (|text| / blockSize + 1) && r[..|text|] == text
      && forall k :: |text| <= k < |r| ==> r[k] == n as bv8
  {
    var r := Pad(text, blockSize);
    assert r[..|text|] == text;
    PaddedLength(|text|, blockSize);
  }

  lemma PaddedLength(n: int, b: int)
    requires 0 <= n && 0 < b
    ensures n + (b - n % b) == b * (n / b + 1)
  {
    assert n == b * (n / b) + n % b;
    assert b * (n / b + 1) == b * (n / b) + b;
  }

  /** A text whose length is a multiple of the block size gains a whole
      block. */
  lemma PadFullBlock(text: seq<bv8>, blockSize: int)
    requires 0 < blockSize < 256 && |text| % blockSize == 0
    ensures |Pad(text, blockSize)| == |text| + blockSize
  {}

  /** Unpadding removes exactly the padding. */
  lemma UnpadPad(text: seq<bv8>, blockSize: int)
    requires 0 < blockSize < 256
    ensures Unpad(Pad(text, blockSize)) == text
  {
    var r := Pad(text, blockSize);
    var n := blockSize - |text| % blockSize;
    assert r[|r| - 1] == n as bv8;
    ByteValue(n);
    assert r[..|text|] == text;
  }

  /** A count below 256 survives its round trip through a byte. */
  lemma {:induction false} ByteValue(n: int)
    requires 0 <= n < 256
    ensures (n as bv8) as int == n
    decreases n
  {
    if n > 0 {
      ByteValue(n - 1);
      var b := (n - 1) as bv8;
      ByteSucc(b);
      IntByte(b + 1);
    }
  }

  lemma ByteSucc(b: bv8)
    requires b as int < 255
    ensures (b + 1) as int == b as int + 1
  {}

  lemma IntByte(b: bv8)
    ensures (b as int) as bv8 == b
  {}

  /** On a well-padded text, unpadding drops the last `n` bytes where `n`
      is the value of the last byte. */
  lemma UnpadWellPadded(text: seq<bv8>)
    requires 0 < |text| && text[|text| - 1] as int <= |text|
    ensures Unpad(text) == text[..|text| - text[|text| - 1] as int]
  {}
}
