/**
 * One block: loading 16 bytes into the state, the forward and inverse
 * round sequences, and storing the state back as 16 bytes.
 *
 * Byte `k` of a block is loaded into `state[k % 4][k / 4]`, which is
 * position `4 * (k % 4) + k / 4` of the 16-byte state, and stored back
 * from there; this placement is its own inverse. A block shorter than 16
 * bytes leaves the missing cells undefined (`NaN`), which the first
 * AddRoundKey reads as 0, so the model loads them as 0.
 */
module BlockCipher {
  import opened Rounds
  import opened KeySchedule

  // ---------------------------------------------------------------------
  // Text and state.

  /** The state position that byte `k` of a block is loaded into. */
  function Cell(k: int): (p: int)
    requires 0 <= k < 16
    ensures 0 <= p < 16
  {
    4 * (k % 4) + k / 4
  }

  /** Loading and storing use the same placement, which undoes itself. */
  lemma CellCell(k: int)
    requires 0 <= k < 16
    ensures Cell(Cell(k)) == k
  {}

  /** The 16 bytes with byte `k` moved to `Cell(k)`. */
  function Transpose(s: seq<bv8>): (r: seq<bv8>)
    requires |s| == 16
    ensures |r| == 16
  {
    seq(16, p requires 0 <= p < 16 => s[Cell(p)])
  }

  lemma TransposeTwice(s: seq<bv8>)
    requires |s| == 16
    ensures Transpose(Transpose(s)) == s
  {
    forall p | 0 <= p < 16
      ensures Transpose(Transpose(s))[p] == s[p]
    {
      CellCell(p);
    }
  }

  /** The first 16 bytes of `text`, with 0 for each byte past its end. */
  function Fill(text: seq<bv8>): (r: seq<bv8>)
    ensures |r| == 16
  {
    seq(16, k requires 0 <= k < 16 => if k < |text| then text[k] else 0)
  }

  /** The state a block is loaded into. */
  function Load(text: seq<bv8>): (s: seq<bv8>)
    ensures |s| == 16
  {
    Transpose(Fill(text))
  }

  /** The block a state is stored as. */
  function Store(s: seq<bv8>): (text: seq<bv8>)
    requires |s| == 16
    ensures |text| == 16
  {
    Transpose(s)
  }

  /** Each byte of the block is loaded into its cell, and a byte missing
      from a short block reads as 0. */
  lemma LoadCells(text: seq<bv8>, k: int)
    requires 0 <= k < 16
    ensures Load(text)[Cell(k)] == if k < |text| then text[k] else 0
  {
    CellCell(k);
  }

  /** Storing a loaded block gives the block back. */
  lemma StoreLoad(text: seq<bv8>)
    requires |text| == 16
    ensures Store(Load(text)) == text
  {
    assert Fill(text) == text;
    TransposeTwice(text);
  }

  /** Loading a stored state gives the state back. */
  lemma LoadStore(s: seq<bv8>)
    requires |s| == 16
    ensures Load(Store(s)) == s
  {
    assert Fill(Store(s)) == Store(s);
    TransposeTwice(s);
  }

  method TextToState(text: seq<bv8>) returns (state: array<bv8>)
    ensures fresh(state) && state.Length == 16
    ensures state[..] == Load(text)
  {
    state := new bv8[16];
    for i := 0 to 16
      invariant forall k :: 0 <= k < i ==> state[Cell(k)] == Fill(text)[k]
    {
      forall k | 0 <= k < i
        ensures Cell(k) != Cell(i)
      {
        CellCell(k);
        CellCell(i);
      }
      state[4 * (i % 4) + i / 4] := if i < |text| then text[i] else 0;
    }
    forall p | 0 <= p < 16
      ensures state[p] == Load(text)[p]
    {
      CellCell(p);
    }
  }

  method StateToText(state: array<bv8>) returns (text: seq<bv8>)
    requires state.Length == 16
    ensures text == Store(state[..])
  {
    text := [];
    for i := 0 to 4
      invariant |text| == 4 * i
      invariant forall k :: 0 <= k < |text| ==> text[k] == state[Cell(k)]
    {
      for j := 0 to 4
        invariant |text| == 4 * i + j
        invariant forall k :: 0 <= k < |text| ==> text[k] == state[Cell(k)]
      {
        assert Cell(4 * i + j) == 4 * j + i;
        text := text + [state[4 * j + i]];
      }
    }
  }

  // ---------------------------------------------------------------------
  // The round sequences.

  /** The round key of round `r`: schedule words `4 * r .. 4 * r + 3`. */
  function RoundKey(w: seq<Word>, r: int): (rk: seq<seq<bv8>>)
    requires AllWords(w) && 0 <= r && 4 * r + 4 <= |w|
    ensures IsRoundKey(rk)
  {
    [w[4 * r], w[4 * r + 1], w[4 * r + 2], w[4 * r + 3]]
  }

  /** A schedule of `nr + 1` round keys. */
  predicate Keys(w: seq<Word>, nr: int) {
    1 <= nr && AllWords(w) && |w| == 4 * (nr + 1)
  }

  /** The state after the initial AddRoundKey and the full rounds 1 .. r. */
  function Forward(s: seq<bv8>, w: seq<Word>, nr: int, r: int): (t: seq<bv8>)
    requires |s| == 16 && Keys(w, nr) && 0 <= r < nr
    ensures |t| == 16
    decreases r
  {
    if r == 0 then AddKey(s, RoundKey(w, 0))
    else AddKey(Mix(Shift(Sub(Forward(s, w, nr, r - 1)))), RoundKey(w, r))
  }

  /** The cipher: `nr - 1` full rounds and a final round without
      MixColumns. */
  function Cipher(s: seq<bv8>, w: seq<Word>, nr: int): (t: seq<bv8>)
    requires |s| == 16 && Keys(w, nr)
    ensures |t| == 16
  {
    AddKey(Shift(Sub(Forward(s, w, nr, nr - 1))), RoundKey(w, nr))
  }

  /** The state of the inverse cipher before inverse round `r - 1`: the
      last round key added, then inverse rounds `nr - 1` down to `r`. */
  function Backward(c: seq<bv8>, w: seq<Word>, nr: int, r: int): (t: seq<bv8>)
    requires |c| == 16 && Keys(w, nr) && 1 <= r <= nr
    ensures |t| == 16
    decreases nr - r
  {
    if r == nr then AddKey(c, RoundKey(w, nr))
    else InvMix(AddKey(InvSub(InvShift(Backward(c, w, nr, r + 1))), RoundKey(w, r)))
  }

  /** The inverse cipher, applying the inverses of the steps in reverse
      order. */
  function InvCipher(c: seq<bv8>, w: seq<Word>, nr: int): (t: seq<bv8>)
    requires |c| == 16 && Keys(w, nr)
    ensures |t| == 16
  {
    AddKey(InvSub(InvShift(Backward(c, w, nr, 1))), RoundKey(w, 0))
  }

  /** Inverse round `r` undoes round `r`: before it the inverse cipher
      holds what the forward cipher held after SubBytes and ShiftRows of
      round `r`. */
  predicate InverseMeets(s: seq<bv8>, w: seq<Word>, nr: int, r: int)
    requires |s| == 16 && Keys(w, nr) && 1 <= r <= nr
  {
    Backward(Cipher(s, w, nr), w, nr, r) == Shift(Sub(Forward(s, w, nr, r - 1)))
  }

  lemma {:induction false} BackwardForward(s: seq<bv8>, w: seq<Word>, nr: int, r: int)
    requires |s| == 16 && Keys(w, nr) && 1 <= r <= nr
    ensures InverseMeets(s, w, nr, r)
    decreases nr - r, 1
  {
    if r == nr {
      BackwardAtLast(s, w, nr, r);
    } else {
      BackwardBelowLast(s, w, nr, r);
    }
  }

  lemma BackwardAtLast(s: seq<bv8>, w: seq<Word>, nr: int, r: int)
    requires |s| == 16 && Keys(w, nr) && r == nr
    ensures InverseMeets(s, w, nr, r)
  {
    BackwardLast(s, w, nr);
  }

  lemma {:induction false} BackwardBelowLast(s: seq<bv8>, w: seq<Word>, nr: int, r: int)
    requires |s| == 16 && Keys(w, nr) && 1 <= r < nr
    ensures InverseMeets(s, w, nr, r)
    decreases nr - r, 0
  {
    BackwardForward(s, w, nr, r + 1);
    BackwardStep(s, w, nr, r);
  }

  /** The last round key, added to the ciphertext, leaves what the forward
      cipher held before it. */
  lemma BackwardLast(s: seq<bv8>, w: seq<Word>, nr: int)
    requires |s| == 16 && Keys(w, nr)
    ensures Backward(Cipher(s, w, nr), w, nr, nr) == Shift(Sub(Forward(s, w, nr, nr - 1)))
  {
    AddKeyTwice(Shift(Sub(Forward(s, w, nr, nr - 1))), RoundKey(w, nr));
  }

  /** If the inverse rounds after round `r` reach the state after round
      `r`, inverse round `r` takes it back to the state before. */
  lemma BackwardStep(s: seq<bv8>, w: seq<Word>, nr: int, r: int)
    requires |s| == 16 && Keys(w, nr) && 1 <= r < nr
    requires Backward(Cipher(s, w, nr), w, nr, r + 1) == Shift(Sub(Forward(s, w, nr, r)))
    ensures Backward(Cipher(s, w, nr), w, nr, r) == Shift(Sub(Forward(s, w, nr, r - 1)))
  {
    var x := Shift(Sub(Forward(s, w, nr, r - 1)));
    assert Forward(s, w, nr, r) == AddKey(Mix(x), RoundKey(w, r));
    RoundUndone(x, RoundKey(w, r));
  }

  /** An inverse round undoes a full round with the same round key. */
  lemma RoundUndone(x: seq<bv8>, rk: seq<seq<bv8>>)
    requires |x| == 16 && IsRoundKey(rk)
    ensures InvMix(AddKey(InvSub(InvShift(Shift(Sub(AddKey(Mix(x), rk))))), rk)) == x
  {
    var f := AddKey(Mix(x), rk);
    InvShiftShift(Sub(f));
    InvSubSub(f);
    AddKeyTwice(Mix(x), rk);
    InvMixMix(x);
  }

  /** The inverse cipher undoes the cipher under the same schedule. */
  lemma InvCipherCipher(s: seq<bv8>, w: seq<Word>, nr: int)
    requires |s| == 16 && Keys(w, nr)
    ensures InvCipher(Cipher(s, w, nr), w, nr) == s
  {
    BackwardForward(s, w, nr, 1);
    var f := Forward(s, w, nr, 0);
    InvShiftShift(Sub(f));
    InvSubSub(f);
    AddKeyTwice(s, RoundKey(w, 0));
  }

  // ---------------------------------------------------------------------
  // One block under a key.

  /** The number of rounds for a key of `n` bytes, `Nk + 6`. */
  function RoundCount(n: int): int {
    n / 4 + 6
  }

  lemma ScheduleKeys(key: seq<bv8>)
    requires ValidKeyLength(|key|)
    ensures Keys(Schedule(key), RoundCount(|key|))
  {}

  /** The encryption of the block `text` under `key`. */
  function EncryptedBlock(text: seq<bv8>, key: seq<bv8>): (r: Result<seq<bv8>>)
    ensures r.Ok? <==> ValidKeyLength(|key|)
    ensures r.Ok? ==> |r.value| == 16
    ensures r.Err? ==> r.message == KeyLengthError
  {
    if !ValidKeyLength(|key|) then Err(KeyLengthError)
    else
      ScheduleKeys(key);
      Ok(Store(Cipher(Load(text), Schedule(key), RoundCount(|key|))))
  }

  /** The decryption of the block `text` under `key`. */
  function DecryptedBlock(text: seq<bv8>, key: seq<bv8>): (r: Result<seq<bv8>>)
    ensures r.Ok? <==> ValidKeyLength(|key|)
    ensures r.Ok? ==> |r.value| == 16
    ensures r.Err? ==> r.message == KeyLengthError
  {
    if !ValidKeyLength(|key|) then Err(KeyLengthError)
    else
      ScheduleKeys(key);
      Ok(Store(InvCipher(Load(text), Schedule(key), RoundCount(|key|))))
  }

  /** Decrypting an encrypted block under the same key gives the block. */
  lemma DecryptEncryptBlock(text: seq<bv8>, key: seq<bv8>)
    requires |text| == 16 && ValidKeyLength(|key|)
    ensures DecryptedBlock(EncryptedBlock(text, key).value, key) == Ok(text)
  {
    var w, nr := Schedule(key), RoundCount(|key|);
    ScheduleKeys(key);
    var c := Cipher(Load(text), w, nr);
    LoadStore(c);
    InvCipherCipher(Load(text), w, nr);
    StoreLoad(text);
  }

  /** The rounds of encryptBlock on the state, under the schedule `w`. */
  method CipherRounds(state: array<bv8>, w: seq<Word>, nr: int)
    requires state.Length == 16 && Keys(w, nr)
    modifies state
    ensures state[..] == Cipher(old(state[..]), w, nr)
  {
    ghost var s := state[..];
    AddRoundKey(state, RoundKey(w, 0));
    for round := 1 to nr
      invariant state[..] == Forward(s, w, nr, round - 1)
    {
      SubBytes(state);
      ShiftRows(state);
      MixColumns(state);
      AddRoundKey(state, RoundKey(w, round));
    }
    assert state[..] == Forward(s, w, nr, nr - 1);
    // The final round has no MixColumns.
    SubBytes(state);
    ShiftRows(state);
    AddRoundKey(state, RoundKey(w, nr));
  }

  /** The rounds of decryptBlock on the state, under the schedule `w`. */
  method InvCipherRounds(state: array<bv8>, w: seq<Word>, nr: int)
    requires state.Length == 16 && Keys(w, nr)
    modifies state
    ensures state[..] == InvCipher(old(state[..]), w, nr)
  {
    ghost var c := state[..];
    AddRoundKey(state, RoundKey(w, nr));
    for round := nr downto 1
      invariant state[..] == Backward(c, w, nr, round)
    {
      InvShiftRows(state);
      InvSubBytes(state);
      AddRoundKey(state, RoundKey(w, round));
      InvMixColumns(state);
    }
    InvShiftRows(state);
    InvSubBytes(state);
    AddRoundKey(state, RoundKey(w, 0));
  }

  /** Encrypts one block: expands the key, loads the block, runs the
      rounds and stores the state. (The block is loaded after the key is
      expanded; neither step depends on the other.) */
  method EncryptBlock(block: seq<bv8>, key: seq<bv8>) returns (r: Result<seq<bv8>>)
    ensures r == EncryptedBlock(block, key)
  {
    var expanded := KeyExpansion(key);
    if expanded.Err? {
      return Err(expanded.message);
    }
    var state := TextToState(block);
    var nr := |key| / 4 + 6;
    ScheduleKeys(key);
    CipherRounds(state, expanded.value, nr);
    var text := StateToText(state);
    return Ok(text);
  }

  /** Decrypts one block, as EncryptBlock with the inverse rounds. */
  method DecryptBlock(block: seq<bv8>, key: seq<bv8>) returns (r: Result<seq<bv8>>)
    ensures r == DecryptedBlock(block, key)
  {
    var expanded := KeyExpansion(key);
    if expanded.Err? {
      return Err(expanded.message);
    }
    var state := TextToState(block);
    var nr := |key| / 4 + 6;
    ScheduleKeys(key);
    InvCipherRounds(state, expanded.value, nr);
    var text := StateToText(state);
    return Ok(text);
  }
}
