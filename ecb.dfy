/**
 * Messages of any length in ECB mode: encryption pads the message to a
 * whole number of 16-byte blocks and encrypts each block on its own;
 * decryption decrypts each 16-byte slice of the ciphertext and unpads.
 * The ciphertext is the byte string before its Base64 encoding.
 */
module Ecb {
  import opened KeySchedule
  import opened BlockCipher
  import opened Padding

  /** A block function: a map from (at most) 16 input bytes to 16 bytes. */
  type BlockFunction = seq<bv8> -> seq<bv8>

  ghost predicate BlockSized(e: BlockFunction) {
    forall b :: |e(b)| == 16
  }

  /** The number of passes of a loop `for (i = 0; i < n; i += 16)`. */
  function BlockCount(n: int): int {
    if n <= 0 then 0 else (n + 15) / 16
  }

  /** Block `j` of `p`: `p.slice(16 * j, 16 * j + 16)`, shorter at the end. */
  function Chunk(p: seq<bv8>, j: int): (b: seq<bv8>)
    requires 0 <= j < BlockCount(|p|)
    ensures |b| <= 16
  {
    p[16 * j .. if 16 * j + 16 <= |p| then 16 * j + 16 else |p|]
  }

  /** ECB mode: the images under `e` of the first `n` blocks of `p`,
      concatenated. */
  function Blocks(p: seq<bv8>, e: BlockFunction, n: int): (c: seq<bv8>)
    requires BlockSized(e) && 0 <= n <= BlockCount(|p|)
    ensures |c| == 16 * n
  {
    if n == 0 then [] else Blocks(p, e, n - 1) + e(Chunk(p, n - 1))
  }

  /** The block encryption under `key`. */
  function Encryptor(key: seq<bv8>): (e: BlockFunction)
    requires ValidKeyLength(|key|)
    ensures BlockSized(e)
  {
    b => EncryptedBlock(b, key).value
  }

  /** The block decryption under `key`. */
  function Decryptor(key: seq<bv8>): (d: BlockFunction)
    requires ValidKeyLength(|key|)
    ensures BlockSized(d)
  {
    b => DecryptedBlock(b, key).value
  }

  /** The ciphertext of `message` under `key` (before Base64). */
  function Encryption(message: seq<bv8>, key: seq<bv8>): (r: Result<seq<bv8>>)
    ensures r.Ok? <==> ValidKeyLength(|key|)
    ensures r.Err? ==> r.message == KeyLengthError
  {
    if !ValidKeyLength(|key|) then Err(KeyLengthError)
    else
      var padded := Pad(message, 16);
      Ok(Blocks(padded, Encryptor(key), BlockCount(|padded|)))
  }

  /** The plaintext of the ciphertext `c` under `key`. */
  function Decryption(c: seq<bv8>, key: seq<bv8>): (r: Result<seq<bv8>>)
    ensures r.Ok? <==> ValidKeyLength(|key|)
    ensures r.Err? ==> r.message == KeyLengthError
  {
    if !ValidKeyLength(|key|) then Err(KeyLengthError)
    else Ok(Unpad(Blocks(c, Decryptor(key), BlockCount(|c|))))
  }

  // ---------------------------------------------------------------------
  // The loops.

  /** One pass of the loop over `p`, from offset `i` to `i + 16`, appends
      the image of block `i / 16`. */
  lemma BlocksAppend(p: seq<bv8>, e: BlockFunction, i: int, acc: seq<bv8>, x: seq<bv8>)
    requires BlockSized(e) && 0 <= i < |p| && i % 16 == 0
    requires acc == Blocks(p, e, i / 16) && x == e(Chunk(p, i / 16))
    ensures (i + 16) % 16 == 0 && (i + 16) / 16 <= BlockCount(|p|)
    ensures i + 16 >= |p| ==> (i + 16) / 16 == BlockCount(|p|)
    ensures acc + x == Blocks(p, e, (i + 16) / 16)
  {
    assert (i + 16) / 16 == i / 16 + 1;
  }

  method EncryptAES(message: seq<bv8>, key: seq<bv8>) returns (r: Result<seq<bv8>>)
    ensures r == Encryption(message, key)
  {
    if !ValidKeyLength(|key|) {
      return Err(KeyLengthError);
    }
    ghost var e := Encryptor(key);
    var padded := Pad(message, 16);
    var encrypted: seq<bv8> := [];
    var i := 0;
    while i < |padded|
      invariant 0 <= i && i % 16 == 0
      invariant i < |padded| || i / 16 == BlockCount(|padded|)
      invariant i / 16 <= BlockCount(|padded|)
      invariant encrypted == Blocks(padded, e, i / 16)
      decreases |padded| - i
    {
      var b := EncryptBlock(Chunk(padded, i / 16), key);
      BlocksAppend(padded, e, i, encrypted, b.value);
      encrypted := encrypted + b.value;
      i := i + 16;
    }
    return Ok(encrypted);
  }

  method DecryptAES(ciphertext: seq<bv8>, key: seq<bv8>) returns (r: Result<seq<bv8>>)
    ensures r == Decryption(ciphertext, key)
  {
    if !ValidKeyLength(|key|) {
      return Err(KeyLengthError);
    }
    ghost var d := Decryptor(key);
    var decrypted: seq<bv8> := [];
    var i := 0;
    while i < |ciphertext|
      invariant 0 <= i && i % 16 == 0
      invariant i < |ciphertext| || i / 16 == BlockCount(|ciphertext|)
      invariant i / 16 <= BlockCount(|ciphertext|)
      invariant decrypted == Blocks(ciphertext, d, i / 16)
      decreases |ciphertext| - i
    {
      var b := DecryptBlock(Chunk(ciphertext, i / 16), key);
      BlocksAppend(ciphertext, d, i, decrypted, b.value);
      decrypted := decrypted + b.value;
      i := i + 16;
    }
    return Ok(Unpad(decrypted));
  }

  // ---------------------------------------------------------------------
  // Properties.

  /** ECB output of a padded message is as long as the padded message. */
  lemma PaddedBlocksLength(message: seq<bv8>, e: BlockFunction)
    requires BlockSized(e)
    ensures var padded := Pad(message, 16);
      |Blocks(padded, e, BlockCount(|padded|))| == 16 * (|message| / 16 + 1)
  {
    PadShape(message, 16);
  }

  /** The ciphertext is one block longer than the whole blocks of the
      message. */
  lemma EncryptionLength(message: seq<bv8>, key: seq<bv8>)
    requires ValidKeyLength(|key|)
    ensures |Encryption(message, key).value| == 16 * (|message| / 16 + 1)
  {
    PaddedBlocksLength(message, Encryptor(key));
  }

  /** A longer run of the loop extends a shorter one. */
  lemma {:induction false} BlocksPrefix(p: seq<bv8>, e: BlockFunction, m: int, n: int)
    requires BlockSized(e) && 0 <= m <= n <= BlockCount(|p|)
    ensures Blocks(p, e, n)[..16 * m] == Blocks(p, e, m)
    decreases n
  {
    if m < n {
      BlocksPrefix(p, e, m, n - 1);
      assert Blocks(p, e, n)[..16 * (n - 1)] == Blocks(p, e, n - 1);
    }
  }

  /** Block `j` of the output is the image of block `j` of the input. */
  lemma ChunkOfBlocks(p: seq<bv8>, e: BlockFunction, n: int, j: int)
    requires BlockSized(e) && 0 <= j < n <= BlockCount(|p|)
    ensures BlockCount(|Blocks(p, e, n)|) == n
    ensures Chunk(Blocks(p, e, n), j) == e(Chunk(p, j))
  {
    var c := Blocks(p, e, n);
    BlocksPrefix(p, e, j + 1, n);
    assert c[..16 * (j + 1)] == Blocks(p, e, j + 1);
    assert Chunk(c, j) == c[..16 * (j + 1)][16 * j ..];
  }

  /** Block `j` of the ciphertext is the encryption of block `j` of the
      padded message alone, so equal message blocks give equal ciphertext
      blocks. */
  lemma EncryptionBlock(message: seq<bv8>, key: seq<bv8>, j: int)
    requires ValidKeyLength(|key|) && 0 <= j <= |message| / 16
    ensures BlockCount(|Encryption(message, key).value|) == |message| / 16 + 1
    ensures Chunk(Encryption(message, key).value, j)
         == EncryptedBlock(Chunk(Pad(message, 16), j), key).value
  {
    var padded := Pad(message, 16);
    PadShape(message, 16);
    assert BlockCount(|padded|) == |message| / 16 + 1;
    ChunkOfBlocks(padded, Encryptor(key), BlockCount(|padded|), j);
  }

  /** A block function undone by `d` on every full block: ECB with `d`
      undoes ECB with `e` on the first `m` blocks. */
  lemma {:induction false} BlocksInverse(p: seq<bv8>, e: BlockFunction, d: BlockFunction, n: int, m: int)
    requires BlockSized(e) && BlockSized(d) && |p| == 16 * n && 0 <= m <= n
    requires forall b {:trigger d(e(b))} :: |b| == 16 ==> d(e(b)) == b
    ensures BlockCount(|Blocks(p, e, n)|) == n
    ensures Blocks(Blocks(p, e, n), d, m) == p[..16 * m]
    decreases m
  {
    if m > 0 {
      var c := Blocks(p, e, n);
      BlocksInverse(p, e, d, n, m - 1);
      ChunkOfBlocks(p, e, n, m - 1);
      var x := Chunk(p, m - 1);
      assert x == p[16 * (m - 1) .. 16 * m];
      assert d(e(x)) == x;
      assert Blocks(c, d, m) == Blocks(c, d, m - 1) + d(Chunk(c, m - 1));
      assert p[..16 * m] == p[..16 * (m - 1)] + x;
    }
  }

  /** ECB with `d` after ECB with `e` returns the padded message, when
      `d` undoes `e` on full blocks, and unpadding then returns the
      message. */
  lemma PaddedRoundTrip(message: seq<bv8>, e: BlockFunction, d: BlockFunction)
    requires BlockSized(e) && BlockSized(d)
    requires forall b {:trigger d(e(b))} :: |b| == 16 ==> d(e(b)) == b
    ensures var padded := Pad(message, 16);
      var c := Blocks(padded, e, BlockCount(|padded|));
      Unpad(Blocks(c, d, BlockCount(|c|))) == message
  {
    var padded := Pad(message, 16);
    PadShape(message, 16);
    var n := |message| / 16 + 1;
    assert BlockCount(|padded|) == n;
    BlocksInverse(padded, e, d, n, n);
    assert padded[..16 * n] == padded;
    UnpadPad(message, 16);
  }

  /** Block decryption undoes block encryption under the same key. */
  lemma DecryptorEncryptor(key: seq<bv8>)
    requires ValidKeyLength(|key|)
    ensures var e, d := Encryptor(key), Decryptor(key);
      forall b {:trigger d(e(b))} :: |b| == 16 ==> d(e(b)) == b
  {
    var e, d := Encryptor(key), Decryptor(key);
    forall b | |b| == 16
      ensures d(e(b)) == b
    {
      DecryptEncryptBlock(b, key);
    }
  }

  /** Decrypting the encryption of a message under the same key gives the
      message back. */
  lemma DecryptEncrypt(message: seq<bv8>, key: seq<bv8>)
    requires ValidKeyLength(|key|)
    ensures Decryption(Encryption(message, key).value, key) == Ok(message)
  {
    DecryptorEncryptor(key);
    PaddedRoundTrip(message, Encryptor(key), Decryptor(key));
  }
}
