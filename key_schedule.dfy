/**
 * Key expansion: the cipher key, of 16, 24 or 32 bytes, is stretched
 * into `4 * (Nr + 1)` words of four bytes, `Nr = Nk + 6` rounds for a key
 * of `Nk` words. Word `i` of the schedule for `i >= Nk` is word `i - Nk`
 * XORed with a transform of word `i - 1`.
 */
module KeySchedule {
  import opened Tables

  /** The outcome of an operation that throws on bad input. */
  datatype Result<T> = Ok(value: T) | Err(message: string)

  /** The message thrown for a key of the wrong length. */
  const KeyLengthError: string := "Key length must be 16, 24, or 32 bytes"

  /** Four bytes. */
  type Word = seq<bv8>

  /** The key lengths the cipher accepts, in bytes. */
  predicate ValidKeyLength(n: int) {
    n == 16 || n == 24 || n == 32
  }

  /** The key lengths the cipher accepts, in words. */
  predicate ValidNk(nk: int) {
    nk == 4 || nk == 6 || nk == 8
  }

  /** The number of words of the expanded key, `Nb * (Nr + 1)`. */
  function ScheduleLength(nk: int): int {
    4 * (nk + 7)
  }

  predicate AllWords(w: seq<Word>) {
    forall i :: 0 <= i < |w| ==> |w[i]| == 4
  }

  function RotWord(w: Word): (r: Word)
    requires |w| == 4
    ensures |r| == 4
  {
    [w[1], w[2], w[3], w[0]]
  }

  function SubWord(w: Word): (r: Word)
    requires |w| == 4
    ensures |r| == 4
  {
    [SubByte(w[0]), SubByte(w[1]), SubByte(w[2]), SubByte(w[3])]
  }

  function XorWord(u: Word, v: Word): (r: Word)
    requires |u| == 4 && |v| == 4
    ensures |r| == 4
  {
    [u[0] ^ v[0], u[1] ^ v[1], u[2] ^ v[2], u[3] ^ v[3]]
  }

  /** Word `i` of the key itself. */
  function KeyWord(key: seq<bv8>, i: int): (r: Word)
    requires 0 <= i && 4 * i + 4 <= |key|
    ensures r == key[4 * i .. 4 * i + 4] && |r| == 4
  {
    [key[4 * i], key[4 * i + 1], key[4 * i + 2], key[4 * i + 3]]
  }

  /** The round constant used for word `i`, a multiple of `nk`. Its index
      `i / nk - 1` is below ten for every word of the schedule. */
  function Rcon(i: int, nk: int): bv8
    requires ValidNk(nk) && nk <= i < ScheduleLength(nk)
  {
    RCON[i / nk - 1]
  }

  /** The value `temp` that is XORed into word `i - nk` to give word `i`,
      computed from `prev`, word `i - 1`. */
  function Temp(prev: Word, i: int, nk: int): (r: Word)
    requires |prev| == 4 && ValidNk(nk) && nk <= i < ScheduleLength(nk)
    ensures |r| == 4
  {
    if i % nk == 0 then
      var t := SubWord(RotWord(prev));
      t[0 := t[0] ^ Rcon(i, nk)]
    else if nk > 6 && i % nk == 4 then
      SubWord(prev)
    else
      prev
  }

  /** The first `n` words of the schedule of `key`. */
  function Expand(key: seq<bv8>, nk: int, n: int): (w: seq<Word>)
    requires ValidNk(nk) && |key| == 4 * nk && 0 <= n <= ScheduleLength(nk)
    ensures |w| == n && AllWords(w)
    decreases n
  {
    if n <= nk then
      seq(n, i requires 0 <= i < n => KeyWord(key, i))
    else
      var w := Expand(key, nk, n - 1);
      w + [XorWord(w[n - 1 - nk], Temp(w[n - 2], n - 1, nk))]
  }

  /** The expanded key of a key of valid length. */
  function Schedule(key: seq<bv8>): (w: seq<Word>)
    requires ValidKeyLength(|key|)
    ensures |w| == ScheduleLength(|key| / 4) && AllWords(w)
  {
    Expand(key, |key| / 4, ScheduleLength(|key| / 4))
  }

  // ---------------------------------------------------------------------
  // What the schedule is.

  /** Computing more words leaves the earlier ones as they were. */
  lemma {:induction false} ExpandPrefix(key: seq<bv8>, nk: int, m: int, n: int)
    requires ValidNk(nk) && |key| == 4 * nk && 0 <= m <= n <= ScheduleLength(nk)
    ensures Expand(key, nk, n)[..m] == Expand(key, nk, m)
    decreases n
  {
    if m < n {
      ExpandPrefix(key, nk, m, n - 1);
      if n > nk {
        assert Expand(key, nk, n)[..n - 1] == Expand(key, nk, n - 1);
      } else {
        assert m <= nk;
      }
    }
  }

  /** Word `n - 1` of a longer prefix, computed from the shorter one. */
  lemma ExpandStep(key: seq<bv8>, nk: int, n: int)
    requires ValidNk(nk) && |key| == 4 * nk && nk < n <= ScheduleLength(nk)
    ensures var v := Expand(key, nk, n - 1);
      Expand(key, nk, n) == v + [XorWord(v[n - 1 - nk], Temp(v[n - 2], n - 1, nk))]
  {}

  /** The rounds index the round constant within its ten entries. */
  lemma RconIndex(i: int, nk: int)
    requires ValidNk(nk) && nk <= i < ScheduleLength(nk)
    ensures 0 <= i / nk - 1 < |RCON|
  {}

  /** The key words come first in every prefix that holds them. */
  lemma ExpandKeyWords(key: seq<bv8>, nk: int, n: int, i: int)
    requires ValidNk(nk) && |key| == 4 * nk && 0 <= i < nk <= n <= ScheduleLength(nk)
    ensures Expand(key, nk, n)[i] == key[4 * i .. 4 * i + 4]
  {
    ExpandPrefix(key, nk, nk, n);
    assert Expand(key, nk, n)[i] == Expand(key, nk, n)[..nk][i];
  }

  /** In every prefix, each word after the key follows the recurrence. */
  lemma ExpandRecurrence(key: seq<bv8>, nk: int, n: int, i: int)
    requires ValidNk(nk) && |key| == 4 * nk && nk <= i < n <= ScheduleLength(nk)
    ensures var w := Expand(key, nk, n);
      w[i] == XorWord(w[i - nk], Temp(w[i - 1], i, nk))
  {
    var w := Expand(key, nk, n);
    var v := Expand(key, nk, i);
    ExpandStep(key, nk, i + 1);
    ExpandPrefix(key, nk, i + 1, n);
    ExpandPrefix(key, nk, i, n);
    assert w[i] == Expand(key, nk, i + 1)[i];
    assert w[i - nk] == v[i - nk] && w[i - 1] == v[i - 1];
  }

  /** The schedule of a key of `nk` words is its full-length expansion. */
  lemma ScheduleIsExpand(key: seq<bv8>, nk: int)
    requires ValidNk(nk) && |key| == 4 * nk
    ensures Schedule(key) == Expand(key, nk, ScheduleLength(nk))
  {}

  /** The first case of `Temp`, with the round constant read from the
      table. */
  lemma TempRotate(prev: Word, i: int, nk: int)
    requires |prev| == 4 && ValidNk(nk) && nk <= i < ScheduleLength(nk) && i % nk == 0
    requires 0 <= i / nk - 1 < |RCON|
    ensures var t := SubWord(RotWord(prev)); Temp(prev, i, nk) == t[0 := t[0] ^ RCON[i / nk - 1]]
  {}

  /** The first `Nk` words are the key's consecutive four-byte slices. */
  lemma ScheduleKeyWords(key: seq<bv8>, nk: int, i: int)
    requires ValidNk(nk) && |key| == 4 * nk && 0 <= i < nk
    ensures Schedule(key)[i] == key[4 * i .. 4 * i + 4]
  {
    ScheduleIsExpand(key, nk);
    ExpandKeyWords(key, nk, ScheduleLength(nk), i);
  }

  /** Every later word is word `i - Nk` XORed with `Temp` of word `i - 1`. */
  lemma ScheduleRecurrence(key: seq<bv8>, nk: int, i: int)
    requires ValidNk(nk) && |key| == 4 * nk && nk <= i < ScheduleLength(nk)
    ensures var w := Schedule(key);
      w[i] == XorWord(w[i - nk], Temp(w[i - 1], i, nk))
  {
    ScheduleIsExpand(key, nk);
    ExpandRecurrence(key, nk, ScheduleLength(nk), i);
  }

  // ---------------------------------------------------------------------
  // The in-place expansion.

  /** The `temp` of word `i`, computed from word `i - 1` as the expansion
      loop does. */
  method NextTemp(prev: Word, i: int, nk: int) returns (temp: Word)
    requires |prev| == 4 && ValidNk(nk) && nk <= i < ScheduleLength(nk)
    ensures temp == Temp(prev, i, nk)
  {
    temp := prev;
    if i % nk == 0 {
      RconIndex(i, nk);
      TempRotate(temp, i, nk);
      temp := SubWord(RotWord(temp));
      temp := temp[0 := temp[0] ^ RCON[i / nk - 1]];
    } else if nk > 6 && i % nk == 4 {
      temp := SubWord(temp);
    }
  }

  /** Fills the expanded key word by word, or fails on a key of the wrong
      length. */
  method KeyExpansion(key: seq<bv8>) returns (r: Result<seq<Word>>)
    ensures ValidKeyLength(|key|) <==> r.Ok?
    ensures r.Ok? ==> r.value == Schedule(key)
    ensures r.Err? ==> r.message == KeyLengthError
  {
    if !ValidKeyLength(|key|) {
      return Err(KeyLengthError);
    }
    var nk := |key| / 4;
    var nr := nk + 6;
    assert ValidNk(nk) && |key| == 4 * nk;
    var expandedKey: seq<Word> := [];
    for i := 0 to nk
      invariant expandedKey == Expand(key, nk, i)
    {
      expandedKey := expandedKey + [KeyWord(key, i)];
    }
    for i := nk to 4 * (nr + 1)
      invariant expandedKey == Expand(key, nk, i)
    {
      var temp := NextTemp(expandedKey[i - 1], i, nk);
      ExpandStep(key, nk, i + 1);
      expandedKey := expandedKey + [XorWord(expandedKey[i - nk], temp)];
    }
    ScheduleIsExpand(key, nk);
    return Ok(expandedKey);
  }
}
