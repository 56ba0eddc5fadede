# AES block cipher and ECB message encryption

This project models the AES implementation in `src/lib/aes.ts` in Dafny and
proves properties of the model. That implementation covers:

- the substitution boxes and round constants;
- multiplication in GF(2^8);
- the four round primitives and their inverses, each updating a 4×4 byte
  state in place;
- key expansion for 16-, 24- and 32-byte keys;
- loading a 16-byte block into the state and storing it back;
- PKCS#7 padding;
- encryption and decryption of one block;
- encryption and decryption of whole messages in ECB mode.

The code's form is kept:

- The in-place primitives are methods over a 16-byte `array<bv8>`. Entry
  `state[i][j]` sits at position `4 * i + j`.
- Functions and loops that compute a value are methods with loop
  invariants.
- Each method is proved equal to a pure specification function (`Sub`,
  `Shift`, `Mix`, `AddKey`, `Schedule`, `Cipher`, `Encryption`, …).
- The properties the code relies on are lemmas about those functions. The
  main ones:
  - each primitive is undone by its inverse;
  - the inverse cipher undoes the cipher;
  - decrypting an encryption under the same key returns the message.

The model follows the code, not FIPS-197:

- Loading puts byte `k` of a block at `state[k % 4][k / 4]`.
- `mixColumns` mixes the four entries `state[i][0..3]`.
- `addRoundKey` adds key word `i` into `state[i]`.
- The model does exactly this and claims no agreement with the published
  AES test vectors.

The modules:

- `GaloisField`: addition (XOR) and the multiplication loop, with the
  algebra needed to invert MixColumns.
- `Tables`: the S-box and inverse S-box, written as decision trees over the
  bits of the index, and the round constants.
- `Rounds`: SubBytes, ShiftRows, MixColumns, AddRoundKey and the inverses.
- `KeySchedule`: key expansion.
- `BlockCipher`: loading and storing the state, and the round sequences of
  `encryptBlock` and `decryptBlock`.
- `Padding`: `pkcs7Pad` and `pkcs7Unpad`.
- `Ecb`: `encryptAES` and `decryptAES`.

Modelling conventions:

- Strings are sequences of bytes (`seq<bv8>`).
- A thrown error is the `Err` case of a `Result`, carrying the thrown
  message.

## Model

| member | source | states |
|---|---|---|
| GaloisField.Multiply | src/lib/aes.ts:141-150 | the shift-and-reduce loop returns `GfMul(a, b)`, the field product; its invariant keeps the running values below 0x100 |
| GaloisField.MulZeroOne | src/lib/aes.ts:141-150 | multiplying by 0 gives 0 and multiplying by 1 gives the byte itself |
| GaloisField.MulMul | src/lib/aes.ts:141-150 | when the bit lengths of the constants `c` and `d` add up to at most 8, multiplying by `c` then by `d` equals multiplying by their carry-less product |
| Tables.InvSubByteSubByte | src/lib/aes.ts:2-70 | every byte is returned by the inverse S-box after the S-box |
| Tables.SubByteInvSubByte | src/lib/aes.ts:2-70 | every byte is returned by the S-box after the inverse S-box, so both boxes are bijections |
| Tables.RconPowers | src/lib/aes.ts:72-74 | the ten round constants start at 1, and each is x times the previous one in GF(2^8) |
| Rounds.SubBytes | src/lib/aes.ts:77-83 | the new state holds the S-box image of each old byte, at the same position |
| Rounds.InvSubBytes | src/lib/aes.ts:85-91 | the new state holds the inverse S-box image of each old byte |
| Rounds.InvSubSub | src/lib/aes.ts:77-91 | InvSubBytes undoes SubBytes on every state |
| Rounds.ShiftRows | src/lib/aes.ts:93-115 | the temp-and-swap writes produce `Shift` of the old state |
| Rounds.ShiftRotatesLeft | src/lib/aes.ts:93-115 | `Shift` rotates row `i` left by `i` places: entry `(i, j)` comes from `(i, (j + i) mod 4)` |
| Rounds.InvShiftRows | src/lib/aes.ts:117-139 | the writes produce `InvShift` of the old state |
| Rounds.InvShiftRotatesRight | src/lib/aes.ts:117-139 | `InvShift` rotates row `i` right by `i` places |
| Rounds.InvShiftShift | src/lib/aes.ts:93-139 | InvShiftRows undoes ShiftRows on every state |
| Rounds.MixGroups | src/lib/aes.ts:152-178 | the loop shared by both mixing steps applies the four byte maps to each group `state[i]` |
| Rounds.MixGroup | src/lib/aes.ts:154-162 | one loop pass: all four bytes of group `i` are read first, then the four maps of them are written, and the other groups are untouched |
| Rounds.MixColumns | src/lib/aes.ts:152-164 | the new state is each group times the circulant matrix 2, 3, 1, 1 |
| Rounds.InvMixColumns | src/lib/aes.ts:166-178 | the new state is each group times the circulant matrix 14, 11, 13, 9 |
| Rounds.ByGroupInverse | src/lib/aes.ts:152-178 | a group map undone by another on every four bytes is undone on the whole state |
| Rounds.InvMixMix | src/lib/aes.ts:152-178 | InvMixColumns undoes MixColumns on every state, which is the matrix identity over GF(2^8) |
| Rounds.AddRoundKey | src/lib/aes.ts:180-186 | each byte `(i, j)` of the new state is the old byte XOR byte `j` of key word `i` |
| Rounds.AddKeyTwice | src/lib/aes.ts:180-186 | adding the same round key twice restores the state |
| KeySchedule.NextTemp | src/lib/aes.ts:204-212 | `temp` is RotWord, then SubWord, then the round constant, when `i mod Nk = 0`; SubWord when `Nk > 6` and `i mod Nk = 4`; otherwise the word before |
| KeySchedule.RconIndex | src/lib/aes.ts:209 | the round constant index `i / Nk - 1` is within the ten constants for every word the loop computes |
| KeySchedule.KeyExpansion | src/lib/aes.ts:188-218 | fails with the key-length message exactly when the length is not 16, 24 or 32 bytes; otherwise returns the schedule |
| KeySchedule.ScheduleKeyWords | src/lib/aes.ts:197-200 | the first `Nk` words of the schedule are the key's consecutive four-byte slices |
| KeySchedule.ScheduleRecurrence | src/lib/aes.ts:202-215 | each later word `i` is word `i - Nk` XOR `temp` of word `i - 1` |
| BlockCipher.TextToState | src/lib/aes.ts:222-228 | byte `k` of the block goes to `state[k % 4][k / 4]`; a byte missing from a short block reads as 0 |
| BlockCipher.LoadCells | src/lib/aes.ts:222-228 | each cell of the loaded state holds the block byte assigned to it, or 0 past the block's end |
| BlockCipher.StateToText | src/lib/aes.ts:231-239 | the text is `state[j][i]` for `i` outer and `j` inner |
| BlockCipher.StoreLoad | src/lib/aes.ts:222-239 | storing a loaded 16-byte block gives the block back |
| BlockCipher.LoadStore | src/lib/aes.ts:222-239 | loading a stored state gives the state back |
| BlockCipher.CipherRounds | src/lib/aes.ts:262-284 | the rounds leave `Cipher` of the old state: the initial key, `Nr - 1` full rounds, and a final round without MixColumns |
| BlockCipher.InvCipherRounds | src/lib/aes.ts:297-318 | the inverse rounds, run from round `Nr - 1` down to 1, leave `InvCipher` of the old state |
| BlockCipher.InvCipherCipher | src/lib/aes.ts:262-318 | the inverse round sequence undoes the forward one under every schedule |
| BlockCipher.EncryptedBlock | src/lib/aes.ts:254-287 | one block encrypted under a key: an error exactly for a bad key length, otherwise 16 bytes |
| BlockCipher.DecryptedBlock | src/lib/aes.ts:289-321 | one block decrypted under a key: an error exactly for a bad key length, otherwise 16 bytes |
| BlockCipher.EncryptBlock | src/lib/aes.ts:254-287 | expanding the key, loading, running the rounds and storing computes `EncryptedBlock` |
| BlockCipher.DecryptBlock | src/lib/aes.ts:289-321 | the same steps with the inverse rounds compute `DecryptedBlock` |
| BlockCipher.DecryptEncryptBlock | src/lib/aes.ts:254-321 | decrypting the encryption of a 16-byte block under a valid key gives the block |
| Padding.PadShape | src/lib/aes.ts:242-246 | the padding is `n` copies of `n` with `1 <= n <= blockSize`, the text is kept as a prefix, and the length is a whole number of blocks |
| Padding.PadFullBlock | src/lib/aes.ts:242-246 | a text that fills whole blocks gains a full block of padding |
| Padding.SliceTo | src/lib/aes.ts:250 | `slice(0, end)` is always a prefix of the text, no longer than it; its length is `end` for an end within the text, and the text's length plus `end` for a negative end that stays within the text |
| Padding.Unpad | src/lib/aes.ts:248-251 | the result is always a prefix of the text, including for the empty text and for counts larger than the text |
| Padding.UnpadWellPadded | src/lib/aes.ts:248-251 | when the last byte is at most the length, exactly that many bytes are dropped |
| Padding.ByteValue | src/lib/aes.ts:244 | a pad count below 256 written as a byte reads back as the same count |
| Padding.UnpadPad | src/lib/aes.ts:242-251 | unpadding a padded text returns the text |
| Ecb.Encryption | src/lib/aes.ts:326-340 | the ciphertext is an error exactly for a bad key length, with the thrown message |
| Ecb.Decryption | src/lib/aes.ts:342-356 | the plaintext is an error exactly for a bad key length, with the thrown message |
| Ecb.BlocksAppend | src/lib/aes.ts:334-337 | one loop pass appends the image of the next block and keeps the offset at a multiple of 16 |
| Ecb.EncryptAES | src/lib/aes.ts:326-340 | the key check, padding and per-block loop compute `Encryption` |
| Ecb.DecryptAES | src/lib/aes.ts:342-356 | the key check, per-block loop and unpadding compute `Decryption` |
| Ecb.EncryptionLength | src/lib/aes.ts:331-337 | the ciphertext is one block longer than the whole blocks of the message |
| Ecb.EncryptionBlock | src/lib/aes.ts:334-337 | block `j` of the ciphertext is the encryption of block `j` of the padded message alone, so equal blocks encrypt equally |
| Ecb.BlocksInverse | src/lib/aes.ts:350-353 | if `d` undoes `e` on every full block, ECB with `d` undoes ECB with `e` block by block |
| Ecb.PaddedRoundTrip | src/lib/aes.ts:326-356 | for such `e` and `d`, padding, ECB with `e`, ECB with `d` and unpadding return the message |
| Ecb.DecryptEncrypt | src/lib/aes.ts:326-356 | decrypting the encryption of any message under the same valid key gives the message |

## Left out

- Ecb.EncryptAES: the ciphertext is returned as bytes. The final `btoa` (aes.ts:339) is not modelled, so the Base64 text is not produced.
- Ecb.DecryptAES: the ciphertext is taken as bytes. The initial `atob` (aes.ts:347) is not modelled, and neither is its exception on malformed Base64 input.
- Padding.Pad: `blockSize` is confined to 1..255, so that the count is one byte. The code accepts any number here, but its only caller passes 16.
- Strings hold only bytes.
  - The code works on UTF-16 code units. A code unit of 256 or more in the message or key would index past the S-box; the model cannot express that case.
  - The key's length is checked in code units (aes.ts:327, 343). `encryptBlock` and `decryptBlock` split the key with `Array.from` (aes.ts:256, 291), which counts code points. For byte strings the two agree, and the model treats them as one length.
- JavaScript numbers are modelled by the width they need.
  - `multiply` keeps its variables in 16 bits.
  - The state holds bytes.
  - The `NaN` that `textToState` stores for a byte past the end of a short block is stored as 0. It is first used in `addRoundKey`'s XOR, which reads it as 0.
- The 4×4 state is one 16-byte array, row after row. The four rows of the code are separate arrays that are never aliased, so nothing is lost.
- The MixColumns loop body is the method `Rounds.MixGroup`, called from the loop. It makes the same reads and writes in the same order as the code.
- BlockCipher.EncryptBlock and BlockCipher.DecryptBlock expand the key before they load the block; the code loads the block first. Neither step reads the other's result.
- The ECB lemmas are stated for any function on 16-byte blocks, then applied to the block cipher under a key.
- Exceptions are `Err` results carrying the thrown message, and no other exception is modelled.
- Timing and other side channels are not modelled.
- The user interface, the server code and the other files of the repository are not part of this model.
