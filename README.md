# Atheme arc4random and OperServ OVERRIDE parameter splitting in Dafny

This project models two pieces of the Atheme IRC services core:

- **The ChaCha20 random number generator** of `libathemecore/arc4random.c`, which is Atheme's own
  arc4random. It covers:
  - the ChaCha20 block function, the key and nonce setup, and the counter-mode encryption loop
    (`_rs_chacha_keysetup`, `_rs_chacha_ivsetup`, `_rs_chacha_encrypt`);
  - the generator state (the cipher state `rs`, the 1024-byte buffer `rs_buf`, `rs_count`,
    `rs_have`, `rs_initialized`, `rs_stir_pid`) and the routines that update it: `_rs_init`,
    `_rs_rekey`, `_rs_stir_if_needed`, `_rs_random_u32`;
  - the public functions `atheme_arc4random`, `atheme_arc4random_buf` and
    `atheme_arc4random_uniform`.
- **`text_to_parv` of `modules/operserv/override.c`**, which cuts the parameter text of an
  overridden command into at most `maxparc` parameters. It is modelled together with `strtok(3)`,
  which it calls, and the loop in `os_cmd_override` that clears the unused slots of `newparv`.

The project has these modules:

- `Codec` (codec.dfy): the little-endian byte/word macros.
- `ChaCha` (chacha.dfy): the block function as pure functions, and the in-place array routines
  proved against them.
- `ChaChaVectors` (vectors.dfy): Test Vector #1 of appendix A.1 of RFC 8439 (zero key, zero
  nonce, counter 0) checked against the block function, one quarter round at a time.
- `Sampling` (sampling.dfy): the rejection-sampling arithmetic of `atheme_arc4random_uniform`.
- `Policy` (policy.dfy): the generator state as a value, `GenState`, with one specification
  function per routine and the invariants they keep.
- `Generator` (generator.dfy): class `Arc4Random`, whose fields are the globals. Its methods update
  them in place and are proved equal to the `Policy` functions.
- `CString` (cstring.dfy): `strtok` as a function of the string and a resume position.
- `Override` (override.dfy): `text_to_parv` as a method over an array of `Option<string>`, proved
  against `TextToParvSpec`. That specification is in turn characterised by the words of the text.

The key stream is stated two ways. `CounterBytes` is written over any block function; inside the
encryption loop that block function is a ghost parameter. `KeystreamBytes` is the same stream over
ChaCha20's own block function. `ChaCha.CounterBytesIsKeystream` proves the two agree.

The seed and the process id are inputs of the model (see "Left out").

## Model

| member | source | states |
|---|---|---|
| Codec.DecodeEncode | libathemecore/arc4random.c:62-72 | reading back the 4 bytes CHACHA20_U32TO8 stores with CHACHA20_U8TO32 gives the original word |
| Codec.EncodeDecode | libathemecore/arc4random.c:62-72 | storing the word CHACHA20_U8TO32 reads gives back the same 4 bytes |
| Codec.WordsToBytesAppend | libathemecore/arc4random.c:250-251 | serialising a concatenation of words is the concatenation of the serialisations |
| Codec.WordsToBytesAt | libathemecore/arc4random.c:250-251 | word i of the state lands at bytes 4i..4i+4 of the output block |
| Codec.BytesToWordsOfWordsToBytes | libathemecore/arc4random.c:175-190 | reading words back from serialised words is the identity |
| Codec.WordsToBytesOfBytesToWords | libathemecore/arc4random.c:175-190 | serialising the words read from a byte string (of length a multiple of 4) gives the same bytes |
| ChaCha.RotlIsRotation | libathemecore/arc4random.c:47-48 | the two-shift CHACHA20_ROTL32 is a true left rotation for the amounts 16, 12, 8 and 7 |
| ChaCha.SigmaWords | libathemecore/arc4random.c:81-83 | the sigma bytes read as little-endian words are the four ChaCha constants |
| ChaCha.IncrementCounterValue | libathemecore/arc4random.c:245-248 | bumping word 12 and carrying into word 13 adds one to the 64-bit counter; word 13 moves only when word 12 wraps to 0; no other word changes |
| ChaCha.AdvanceCounterSucc | libathemecore/arc4random.c:245-248 | advancing by n+1 blocks is advancing by n blocks and then incrementing once |
| ChaCha.AdvanceCounterValue | libathemecore/arc4random.c:245-248 | each block adds one to the 64-bit counter; constants, key and nonce never change |
| ChaCha.CounterStreamSnoc | libathemecore/arc4random.c:216-266 | the stream of n+1 blocks is the stream of n blocks followed by the block of the n-times-advanced state |
| ChaCha.CounterStreamAt | libathemecore/arc4random.c:216-266 | block k of the counter-mode stream is the block function applied to the state advanced k times |
| ChaCha.BlocksOfLast | libathemecore/arc4random.c:253-264 | a byte count in (64k, 64k+64] needs exactly k+1 blocks |
| ChaCha.CounterBytesSnoc | libathemecore/arc4random.c:253-264 | the first 64k+n stream bytes are the first 64k followed by the first n bytes of block k |
| ChaCha.KeySetupLayout | libathemecore/arc4random.c:172-191 | after key setup, words 0-3 are the sigma constants, words 4-11 are the 32 key bytes read little-endian, and words 12-15 are unchanged |
| ChaCha.KeySetup | libathemecore/arc4random.c:172-191 | the in-place key setup leaves the context equal to KeySetupSpec of the old context and the key |
| ChaCha.IvSetupLayout | libathemecore/arc4random.c:193-200 | after nonce setup, words 0-11 are unchanged, the 64-bit counter is zero, and words 14-15 serialise back to the 8 nonce bytes |
| ChaCha.IvSetup | libathemecore/arc4random.c:193-200 | the in-place nonce setup leaves the context equal to IvSetupSpec of the old context and the nonce |
| ChaCha.QuarterRoundPairs | libathemecore/arc4random.c:50-60 | the macro's four line pairs run one after the other, each reading the words the earlier ones wrote, are the quarter round of words a, b, c, d |
| ChaCha.AddXorRotate | libathemecore/arc4random.c:52-59 | one line pair in place: x[p] += x[q], then x[r] = ROTL(x[r] ^ x[p], n), and nothing else changes |
| ChaCha.QuarterRoundInPlace | libathemecore/arc4random.c:50-60 | the macro's eight in-place updates on x[a], x[b], x[c], x[d] compute the quarter round on those four words and leave the other twelve alone |
| ChaCha.QuarterRoundsNext | libathemecore/arc4random.c:232-239 | one more quarter round of the schedule runs the next quadruple on the state so far |
| ChaCha.ColumnRoundQuarters | libathemecore/arc4random.c:232-235 | the column round is the quarter rounds on columns (0,4,8,12), (1,5,9,13), (2,6,10,14), (3,7,11,15), in that order |
| ChaCha.DiagonalRoundQuarters | libathemecore/arc4random.c:236-239 | the diagonal round is the quarter rounds on (0,5,10,15), (1,6,11,12), (2,7,8,13), (3,4,9,14), in that order |
| ChaCha.ColumnRoundInPlace | libathemecore/arc4random.c:232-235 | the four column quarter rounds, in place, give ColumnRound of the old state |
| ChaCha.DiagonalRoundInPlace | libathemecore/arc4random.c:236-239 | the four diagonal quarter rounds, in place, give DiagonalRound of the old state |
| ChaCha.AddInto | libathemecore/arc4random.c:242-243 | adding the input state back adds word by word modulo 2^32 |
| ChaCha.BlockInto | libathemecore/arc4random.c:228-243 | copy, ten double rounds (i = 20, 18, ..., 2), then add-back compute the ChaCha20 block of j |
| ChaCha.StoreU32 | libathemecore/arc4random.c:62-68 | CHACHA20_U32TO8 writes exactly the 4 little-endian bytes of the word at the position and nothing else |
| ChaCha.StoreWords | libathemecore/arc4random.c:250-251 | the 16 stores write the 64 serialised state bytes at the offset and leave the rest of the output alone |
| ChaCha.NextBlock | libathemecore/arc4random.c:228-251 | one pass writes the keystream block of the current counter state into the output and increments the counter |
| ChaCha.CopyPrefix | libathemecore/arc4random.c:255-257 | copying the first n bytes of tmp to the real target changes only those n target bytes |
| ChaCha.PartialBlock | libathemecore/arc4random.c:218-258 | a final request shorter than 64 bytes goes through tmp, and exactly the first n bytes of the block reach the output |
| ChaCha.BlockLoop | libathemecore/arc4random.c:216-266 | the for(;;) loop writes the first `bytes` bytes of the counter-mode stream and leaves the output beyond them untouched |
| ChaCha.CounterStreamIsKeystream | libathemecore/arc4random.c:228-251 | counter mode over the ChaCha20 block function is the ChaCha20 keystream |
| ChaCha.CounterBytesIsKeystream | libathemecore/arc4random.c:202-267 | the same, for a byte count that need not be a multiple of 64 |
| ChaCha.Encrypt | libathemecore/arc4random.c:202-267 | the output's first `bytes` bytes are the keystream from the context's counter; the context's counter words end up advanced by ceil(bytes/64) blocks; `bytes == 0` changes nothing |
| ChaChaVectors.QuarterRoundAtWords | libathemecore/arc4random.c:50-60 | a quarter round at a, b, c, d gives the state whose words a, b, c, d are the quarter round's results and whose other twelve words are the old ones |
| ChaChaVectors.ZeroRounds | libathemecore/arc4random.c:230-239 | the ten double rounds on the all-zero key, nonce and counter state pass through the intermediate states of Test Vector #1 (appendix A.1 of RFC 8439) |
| ChaChaVectors.ZeroBlock | libathemecore/arc4random.c:228-243 | the block function on that state gives the sixteen words listed by the RFC, from 0xade0b876 to 0x8665eeb2 |
| ChaChaVectors.ZeroBlockBytes | libathemecore/arc4random.c:250-251 | those words, stored little-endian, are the vector's 64 keystream bytes 76 b8 e0 ad ... 65 86 |
| ChaChaVectors.ZeroKeystreamBlock | libathemecore/arc4random.c:228-251 | the keystream block of the zero state is the vector's 64 bytes |
| ChaChaVectors.ZeroKeyNonceKeystream | libathemecore/arc4random.c:172-200 | key setup with 32 zero bytes and nonce setup with 8 zero bytes, from any state, give the vector's initial state and so its keystream |
| Sampling.NegU32 | libathemecore/arc4random.c:378 | unsigned negation is the additive inverse modulo 2^32 and stays below 2^32 |
| Sampling.Accept | libathemecore/arc4random.c:386-387 | a candidate is accepted iff it is at least -bound % bound; an accepted candidate yields candidate % bound, which is below bound |
| Sampling.MinAcceptedValue | libathemecore/arc4random.c:378 | -bound % bound equals 2^32 mod bound, is below bound, and the accepted range [min, 2^32) has a length that is a multiple of bound |
| Sampling.HitsShort | libathemecore/arc4random.c:386-387 | a run of at most `bound` consecutive candidates hits each residue at most once, and exactly when the residue's offset lies in the run |
| Sampling.HitsSplit | libathemecore/arc4random.c:386-387 | residue counts over two adjacent ranges add up |
| Sampling.HitsRuns | libathemecore/arc4random.c:386-387 | k whole runs of `bound` consecutive candidates hit each residue exactly k times |
| Sampling.Unbiased | libathemecore/arc4random.c:372-389 | every result r < bound is produced by exactly (2^32 - min) / bound accepted candidates, so the rejection step gives every residue equal weight |
| Policy.Initial | libathemecore/arc4random.c:79-94 | the static globals start zeroed, uninitialised, with rs_stir_pid = -1, and satisfy the buffer invariant |
| Policy.InitSpecIsSetup | libathemecore/arc4random.c:269-274 | _rs_init is key setup on the first 32 seed bytes followed by nonce setup on the last 8, whatever the state held before |
| Policy.InitLayout | libathemecore/arc4random.c:269-274 | the state _rs_init leaves gives back exactly its 40 seed bytes as key and nonce; it has the sigma constants and a zero counter |
| Policy.XorBytesTwice | libathemecore/arc4random.c:281-282 | XORing the seed into the buffer twice restores it, so the mixing loses nothing |
| Policy.RekeyProperties | libathemecore/arc4random.c:276-288 | after a rekey: rs_have is 984; the first 40 buffer bytes are zero and the other 984 are fresh keystream; the new key and nonce are the keystream XOR the seed (the keystream itself without a seed); the counter is zero; rs_count, the flag and the pid are unchanged; the invariant holds |
| Policy.StirProperties | libathemecore/arc4random.c:290-320 | when a reseed is due (allowance ≤ len, not initialised, or another pid): the buffer is wiped, rs_have is 0, rs_count is 1600000, the flag is set and the pid recorded; the key is the seed on the first stir, and the keystream XOR the seed afterwards. Otherwise only rs_count drops by len (and was above len). The invariant always holds |
| Policy.ShimSeedKey | libathemecore/arc4random.c:297-306 | as written, the first stir keys the cipher from 40 bytes of 0x5A: every key word and both nonce words are 0x5A5A5A5A and the counter is zero |
| Policy.TakeProperties | libathemecore/arc4random.c:330-333 | handing out n ≤ rs_have bytes returns the n bytes at offset 1024 - rs_have, zeroes them, lowers rs_have by n, and changes nothing else |
| Policy.Refill | libathemecore/arc4random.c:325-328 | after the stir for 4 bytes and the conditional rekey, at least 4 bytes are available and the invariant holds |
| Policy.RandomU32Properties | libathemecore/arc4random.c:322-344 | the word returned is the next 4 bytes of the refilled buffer read little-endian; those bytes are wiped, rs_have drops by 4, the later bytes and the cipher state are untouched |
| Policy.FillStepProperties | libathemecore/arc4random.c:353-369 | one pass of the buffer loop hands out min(len, rs_have) bytes from the read position and leaves a non-empty buffer |
| Policy.FillLoopProperties | libathemecore/arc4random.c:353-369 | the loop produces exactly len bytes and keeps the invariant; for len = 0 it changes nothing |
| Policy.FillLoopFromBuffer | libathemecore/arc4random.c:353-365 | when the buffer already holds len bytes, the output is exactly those bytes |
| Policy.BufProperties | libathemecore/arc4random.c:346-370 | atheme_arc4random_buf yields exactly len bytes and keeps the invariant |
| Policy.UniformLoopReject | libathemecore/arc4random.c:380-388 | a rejected candidate costs one draw and the loop continues from the new state |
| Policy.UniformLoopAccept | libathemecore/arc4random.c:380-388 | an accepted candidate ends the loop with candidate % bound and the state after that draw |
| Policy.UniformProperties | libathemecore/arc4random.c:372-389 | a bound below 2 gives 0 without drawing anything; otherwise any result is below bound; the invariant holds |
| Generator.Arc4Random.constructor | libathemecore/arc4random.c:79-94 | the object starts as the zeroed static globals |
| Generator.Arc4Random.Init | libathemecore/arc4random.c:269-274 | _rs_init in place leaves rs equal to InitSpec of the seed |
| Generator.Arc4Random.Wipe | libathemecore/arc4random.c:285 | zeroes exactly n buffer bytes at the position |
| Generator.Arc4Random.MixIn | libathemecore/arc4random.c:281-282 | XORs the seed into the first 40 buffer bytes; without a seed (NULL) the buffer is unchanged |
| Generator.Arc4Random.Rekey | libathemecore/arc4random.c:276-288 | _rs_rekey in place: the new globals are RekeySpec of the old ones |
| Generator.Arc4Random.StirIfNeeded | libathemecore/arc4random.c:290-320 | _rs_stir_if_needed in place: the new globals are StirSpec of the old ones |
| Generator.Arc4Random.ReadWord | libathemecore/arc4random.c:330-333 | reads the next 4 bytes as a word and wipes them, as Take of 4 |
| Generator.Arc4Random.RandomU32 | libathemecore/arc4random.c:322-344 | returns the word and leaves the globals RandomU32Spec gives |
| Generator.Arc4Random.CopyOut | libathemecore/arc4random.c:359 | memcpy of n buffer bytes to the output at an offset, nothing else in the output changes |
| Generator.Arc4Random.TakeOut | libathemecore/arc4random.c:357-364 | copies and wipes min bytes, as Take |
| Generator.Arc4Random.FillPass | libathemecore/arc4random.c:355-368 | one loop pass: writes min(len, rs_have) bytes, leaves the globals FillStep gives, and rs_have > 0 afterwards |
| Generator.Arc4Random.Fill | libathemecore/arc4random.c:353-369 | the while (len) loop: the first len output bytes and the new globals are FillLoop's; the output beyond len is untouched |
| Generator.Arc4Random.RandomBuf | libathemecore/arc4random.c:346-370 | atheme_arc4random_buf: the first len output bytes and the new globals are BufSpec's; the rest of the output is untouched |
| Generator.Arc4Random.Uniform | libathemecore/arc4random.c:372-389 | atheme_arc4random_uniform: the result and the new globals are UniformSpec's |
| Generator.FillInvariantStep | libathemecore/arc4random.c:353-369 | one pass keeps "output so far + FillLoop of the rest = the whole FillLoop result" |
| CString.SkipDelims | modules/operserv/override.c:123 | the first non-delimiter at or after i: every character skipped is a delimiter |
| CString.SpanToDelim | modules/operserv/override.c:123 | the end of the token: no character in the span is a delimiter, and the next one (if any) is |
| CString.StrtokToken | modules/operserv/override.c:123-126 | strtok returns NULL iff only delimiters remain, and then stays at the end; a token is non-empty, delimiter-free, and followed by a delimiter or the end |
| CString.StrtokNoDelims | modules/operserv/override.c:126 | strtok(p, "") returns the whole rest of the string, or NULL when it is empty |
| Override.SplitShape | modules/operserv/override.c:123-124 | every word is non-empty and has no space |
| Override.WordsShape | modules/operserv/override.c:123-124 | the words of any text are non-empty and space-free |
| Override.WordsBlank | modules/operserv/override.c:123-126 | a text has no words iff it is all spaces |
| Override.StrtokWords | modules/operserv/override.c:123-124 | strtok(p, " ") returns NULL iff no words remain; otherwise it returns the first remaining word and resumes where the rest of the words begin |
| Override.Tokenize | modules/operserv/override.c:123-124 | the first loop stores at most n tokens and only moves forward |
| Override.TokenizeShort | modules/operserv/override.c:123-124 | if the loop stopped on NULL before n tokens, the scan is at the end of the text |
| Override.TokenizeWords | modules/operserv/override.c:123-124 | the tokens taken are the first words of the text, followed by the words from where the scan stopped; with fewer than n tokens they are all the words |
| Override.TrimEnd | modules/operserv/override.c:136-141 | stepping back over trailing spaces stops at the last non-space character, never before the start |
| Override.Trim | modules/operserv/override.c:128-141 | the trimmed text, when non-empty, starts and ends with a non-space character |
| Override.TrimAt | modules/operserv/override.c:128-141 | any slice with only spaces before and after it, and non-spaces at both its ends, is the trimmed text |
| Override.TrimWords | modules/operserv/override.c:128-141 | trimming keeps the words; the trimmed text is empty iff the text has no words |
| Override.TextToParvSpec | modules/operserv/override.c:111-147 | maxparc == 0 or a NULL text gives 0 parameters and no slot written; otherwise at most TokenRounds + 1 slots are written and the count never exceeds them; the last slot is read from where strtok stopped, or from the start of the text when no token was stored |
| Override.TextToParvWords | modules/operserv/override.c:111-147 | for maxparc ≥ 1 and w the words of the text: the count is min(|w|, maxparc); the first slots are the first words in order; when there are at least maxparc words, the last slot is non-empty, trimmed at both ends, and holds exactly the remaining words; with no words, slot 0 is NULL for an empty text and the empty string for an all-space text (strtok(text, "") starts over at the text); with some words but fewer than maxparc - 1, the slot after them is NULL; with exactly maxparc - 1 words it is NULL or empty |
| Override.LastParamWords | modules/operserv/override.c:126-143 | the last parameter taken at a position holds the words from that position without spaces at either end; it is NULL only at the end of the text |
| Override.TextToParvBound | modules/operserv/override.c:111-147 | the count is at most maxparc (at most 1 for a negative maxparc) |
| Override.TextToParvSingle | modules/operserv/override.c:111-147 | with maxparc 1 the single slot is the trimmed text (NULL for an empty text), counted only if it is non-empty |
| Override.StoreTokens | modules/operserv/override.c:123-124 | the first loop, in place: it writes the strtok tokens to parv[0..count) and stops at maxparc - 1 tokens or a NULL |
| Override.TrimSpaces | modules/operserv/override.c:128-141 | the two pointer loops compute Trim |
| Override.StoreRest | modules/operserv/override.c:126-141 | parv[count] gets strtok(p, "") from the resume position, trimmed at both ends when it is not NULL; no other slot changes |
| Override.TextToParv | modules/operserv/override.c:111-147 | returns the specification's count; parv starts with the specification's slots and is unchanged after them |
| Override.NullFill | modules/operserv/override.c:241-242 | slots from `from` to the end become NULL; the slots before are unchanged |
| Override.OverrideParams | modules/operserv/override.c:240-242 | newparc is text_to_parv's count on the parameter text ("" when absent); newparv holds its slots below newparc and NULL from newparc up to slot 20 |

## Left out

- The entropy source (`_rs_get_seed_material`, arc4random.c:96-170) is not part of this model. It is
  I/O. `Policy.StirSpec` and the methods above it take the 40 seed bytes as a parameter `seed`. The
  source as written fills them with 0x5A instead (see "Findings").
- `getpid()` is the parameter `pid`.
- Generator.Arc4Random.Uniform: one `seed` value feeds every stir within a call. The C code reads
  fresh seed material at each reseed, and a reseed can fall between two draws of the rejection
  loop; the model hands the same 40 bytes to each of them.
- Generator.Arc4Random.Uniform (and Policy.UniformSpec, Policy.UniformProperties): the C rejection loop has no bound. The model takes a `fuel` count of draws and
  returns None when the fuel runs out. Termination for every seed is therefore not claimed.
- `memcpy` of buffer bytes into a `uint32_t` (arc4random.c:330) is modelled as a little-endian
  read. On a big-endian host the word would differ; the bytes handed out would not.
- Statistical quality and cryptographic strength are not modelled. `Sampling.Unbiased` counts
  residues over all 2^32 candidates; it is not a statement about probability.
- The `tau` constant (arc4random.c:85-87) is declared but never read by the source. It is kept as a
  constant only.
- ChaCha.Encrypt: the `for (;;)` loop with its exit in the middle is written as a loop over full
  blocks followed by one final block. The loop is stated against a ghost block function; its
  caller `_rs_rekey` passes ChaCha20's (`Generator.Arc4Random.Rekey`), and
  ChaCha.CounterBytesIsKeystream connects the two.
- `atheme_arc4random` is `Generator.Arc4Random.RandomU32`: it only returns the word
  `_rs_random_u32` stores.
- `explicit_bzero(tmp)` at arc4random.c:311 clears a local array that the model does not have.
- strtok's writing of NUL over the delimiter, and the `p[1] = '\0'` of the trim, are not modelled.
  Tokens are string values; aliasing between `parv` entries and the text buffer is not captured.
- The intermediate `parv[count] = p` after the leading spaces are skipped (override.c:132) is
  folded into the single write of the trimmed value.
- Override.OverrideParams requires `maxparc <= 20`. The source does not check it; a command whose
  maxparc exceeds the size of `newparv` would write past the array.
- The rest of `os_cmd_override` is not modelled: account and service lookup, logging, building the
  cooked source, and `command_exec`.

## Findings

| source | as written | input that shows it | evidently intended | confidence | as-written member | corrected member |
|---|---|---|---|---|---|---|
| libathemecore/arc4random.c:297-300 | the call to `_rs_get_seed_material` is commented out and the seed buffer is `memset` to 0x5A, so every process starts from the same public key and nonce | the first call of `atheme_arc4random()` in any process: key words and nonce words are all 0x5A5A5A5A, so the first output is the same everywhere | the 40 seed bytes come from the entropy source, so the first stir keys the cipher from them and each later reseed XORs them into the keystream | not executed | Policy.ShimSeedKey | Policy.StirProperties |
