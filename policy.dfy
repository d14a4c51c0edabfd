/**
 * The generator's buffer and reseed policy (libathemecore/arc4random.c,
 * _rs_init to atheme_arc4random_uniform), stated as functions on a value of
 * the generator's global state. The class in generator.dfy does the same
 * work in place and is proved against these functions.
 *
 * The functions take the block function as a parameter `block`; the
 * generator uses one that agrees with ChaCha.KeystreamBlock (see
 * ChaCha.ComputesKeystreamBlock), and everything proved here holds for any
 * block function. The seed that a reseed mixes in is a parameter (the code as
 * written fills it with the constant 0x5A, see SHIM_SEED), and so is the
 * process id that getpid() would return.
 */
module Policy {
  import opened Wrappers
  import opened Codec
  import opened ChaCha
  import opened Sampling

  const SEED_SIZE: nat := KEY_SIZE + IV_SIZE       // 40 bytes: a key and a nonce
  const REKEY_HAVE: nat := STATE_SIZE - SEED_SIZE  // 984 bytes left after a rekey
  const RESEED_COUNT: nat := 1600000               // bytes handed out between two reseeds
  const NO_PID: int := -1                          // rs_stir_pid before the first stir

  /** The 40 bytes that _rs_stir_if_needed mixes in, as the code is written:
      the entropy call is commented out and `tmp` is filled with 0x5A. */
  const SHIM_SEED: seq<bv8> := seq(SEED_SIZE, _ => 0x5A)

  /** The globals rs (the cipher state), rs_buf, rs_count, rs_have,
      rs_initialized and rs_stir_pid. */
  datatype GenState = GenState(rs: seq<bv32>, buf: seq<bv8>, count: nat, have: nat,
                               initialized: bool, stirPid: int)

  function Zeros(n: nat): (r: seq<bv8>)
    ensures |r| == n && forall i :: 0 <= i < n ==> r[i] == 0
  {
    seq(n, _ => 0)
  }

  /** The shape of the state, and the fact that every byte of the buffer that
      has been consumed (all but the last `have`) is zero. */
  predicate Inv(st: GenState)
  {
    |st.rs| == 16 && |st.buf| == STATE_SIZE && st.have <= STATE_SIZE &&
    forall i :: 0 <= i < STATE_SIZE - st.have ==> st.buf[i] == 0
  }

  /** The state at program start: static storage is zero, rs_stir_pid is -1. */
  function Initial(): (st: GenState)
    ensures Inv(st) && !st.initialized && st.have == 0 && st.count == 0 && st.stirPid == NO_PID
  {
    GenState(seq(16, _ => 0), Zeros(STATE_SIZE), 0, 0, false, NO_PID)
  }

  // ---------------------------------------------------------------------------
  // _rs_init
  // ---------------------------------------------------------------------------

  /** The state _rs_init leaves: the constant words, the first 32 seed bytes as
      the key, a zero counter, and the last 8 seed bytes as the nonce. */
  function InitSpec(seed: seq<bv8>): (r: seq<bv32>)
    requires |seed| == SEED_SIZE
    ensures |r| == 16
  {
    SIGMA_WORDS + BytesToWords(seed[..KEY_SIZE]) + [0, 0] + BytesToWords(seed[KEY_SIZE..])
  }

  /** _rs_init is the key setup from the first 32 bytes followed by the nonce
      setup from the next 8; together they overwrite every word, so the state
      before does not matter. */
  lemma InitSpecIsSetup(rs: seq<bv32>, seed: seq<bv8>)
    requires |rs| == 16 && |seed| == SEED_SIZE
    ensures IvSetupSpec(KeySetupSpec(rs, seed[..KEY_SIZE]), seed[KEY_SIZE..]) == InitSpec(seed)
  {
    var k, iv := seed[..KEY_SIZE], seed[KEY_SIZE..];
    var ks := KeySetupSpec(rs, k);
    KeySetupLayout(rs, k);
    var r, w := IvSetupSpec(ks, iv), InitSpec(seed);
    forall i | 0 <= i < 16
      ensures r[i] == w[i]
    {
      if i < 12 {
        assert r[i] == ks[i] == (SIGMA_WORDS + BytesToWords(k))[i];
      } else if i >= 14 {
        assert r[i] == BytesToWords(iv)[i - 14];
      }
    }
  }

  /** The 40 bytes a state was keyed from: the key words 4-11 and the nonce
      words 14-15, little-endian. */
  function SeedOf(rs: seq<bv32>): (r: seq<bv8>)
    requires |rs| == 16
    ensures |r| == SEED_SIZE
  {
    WordsToBytes(rs[4..12]) + WordsToBytes(rs[14..])
  }

  /** The seed is read back unchanged from the state _rs_init leaves, which
      starts with the constant words and has a zero block counter. */
  lemma InitLayout(seed: seq<bv8>)
    requires |seed| == SEED_SIZE
    ensures SeedOf(InitSpec(seed)) == seed
    ensures InitSpec(seed)[..4] == SIGMA_WORDS && Counter(InitSpec(seed)) == 0
  {
    var k, iv := seed[..KEY_SIZE], seed[KEY_SIZE..];
    var r := InitSpec(seed);
    assert r[4..12] == BytesToWords(k);
    assert r[14..] == BytesToWords(iv);
    WordsToBytesOfBytesToWords(k);
    WordsToBytesOfBytesToWords(iv);
    assert seed == k + iv;
  }

  // ---------------------------------------------------------------------------
  // _rs_rekey
  // ---------------------------------------------------------------------------

  function Xor(a: bv8, b: bv8): bv8
  {
    a ^ b
  }

  /** Byte-wise XOR of two strings of the same length. */
  function XorBytes(a: seq<bv8>, b: seq<bv8>): (r: seq<bv8>)
    requires |a| == |b|
    ensures |r| == |a|
  {
    seq(|a|, i requires 0 <= i < |a| => Xor(a[i], b[i]))
  }

  /** XORing the same bytes in twice gives the original back. */
  lemma XorBytesTwice(a: seq<bv8>, b: seq<bv8>)
    requires |a| == |b|
    ensures XorBytes(XorBytes(a, b), b) == a
  {
    var m := XorBytes(a, b);
    forall i | 0 <= i < |a|
      ensures XorBytes(m, b)[i] == a[i]
    {
      assert Xor(Xor(a[i], b[i]), b[i]) == a[i];
    }
  }

  /** The 1024 bytes of keystream a rekey draws. */
  function RekeyStream(block: seq<bv32> --> seq<bv8>, st: GenState): (r: seq<bv8>)
    requires IsBlockFunction(block) && |st.rs| == 16
    ensures |r| == STATE_SIZE
  {
    CounterBytes(block, st.rs, STATE_SIZE)
  }

  /** The 40 bytes a rekey keys the cipher from: the start of the keystream,
      XORed with the extra seed when there is one. */
  function RekeyMaterial(block: seq<bv32> --> seq<bv8>, st: GenState, extra: Option<seq<bv8>>): (r: seq<bv8>)
    requires IsBlockFunction(block) && |st.rs| == 16
    requires extra.Some? ==> |extra.value| == SEED_SIZE
    ensures |r| == SEED_SIZE
  {
    var ks := RekeyStream(block, st)[..SEED_SIZE];
    if extra.Some? then XorBytes(ks, extra.value) else ks
  }

  /** _rs_rekey: fill the buffer with keystream, XOR the optional seed into its
      first 40 bytes, key and nonce the cipher from those bytes (which
      overwrites the advanced counter too), wipe them, and leave the other
      984 bytes to be handed out. */
  function RekeySpec(block: seq<bv32> --> seq<bv8>, st: GenState, extra: Option<seq<bv8>>): (r: GenState)
    requires IsBlockFunction(block) && |st.rs| == 16
    requires extra.Some? ==> |extra.value| == SEED_SIZE
  {
    st.(rs := InitSpec(RekeyMaterial(block, st, extra)),
        buf := Zeros(SEED_SIZE) + RekeyStream(block, st)[SEED_SIZE..],
        have := REKEY_HAVE)
  }

  /** After a rekey the first 40 bytes are zero and the rest is fresh
      keystream, 984 bytes remain, the cipher is keyed from the keystream XOR
      the seed (the keystream itself without one) and has a zero counter, and
      the counters and flags are untouched. */
  lemma RekeyProperties(block: seq<bv32> --> seq<bv8>, st: GenState, extra: Option<seq<bv8>>)
    requires IsBlockFunction(block) && |st.rs| == 16
    requires extra.Some? ==> |extra.value| == SEED_SIZE
    ensures var r := RekeySpec(block, st, extra);
      Inv(r) && r.have == REKEY_HAVE && r.buf[..SEED_SIZE] == Zeros(SEED_SIZE) &&
      r.buf[SEED_SIZE..] == RekeyStream(block, st)[SEED_SIZE..] &&
      r.count == st.count && r.initialized == st.initialized && r.stirPid == st.stirPid
    ensures var r := RekeySpec(block, st, extra);
      Counter(r.rs) == 0 &&
      (extra.Some? ==> forall i :: 0 <= i < SEED_SIZE ==> SeedOf(r.rs)[i] == Xor(RekeyStream(block, st)[i], extra.value[i])) &&
      (extra.None? ==> SeedOf(r.rs) == RekeyStream(block, st)[..SEED_SIZE])
  {
    InitLayout(RekeyMaterial(block, st, extra));
    var r := RekeySpec(block, st, extra);
    assert r.buf[..SEED_SIZE] == Zeros(SEED_SIZE);
  }

  // ---------------------------------------------------------------------------
  // _rs_stir_if_needed
  // ---------------------------------------------------------------------------

  /** The reseed condition of _rs_stir_if_needed. */
  predicate NeedsStir(st: GenState, len: nat, pid: int)
  {
    st.count <= len || !st.initialized || st.stirPid != pid
  }

  /** _rs_stir_if_needed: on the first call key the cipher from the seed, later
      rekey with the seed mixed in; then wipe the buffer and start a new
      allowance. Otherwise only charge `len` bytes to the allowance. */
  function StirSpec(block: seq<bv32> --> seq<bv8>, st: GenState, len: nat, pid: int, seed: seq<bv8>): (r: GenState)
    requires IsBlockFunction(block) && |st.rs| == 16 && |seed| == SEED_SIZE
  {
    if NeedsStir(st, len, pid) then
      var rs := if !st.initialized then InitSpec(seed) else RekeySpec(block, st, Some(seed)).rs;
      GenState(rs, Zeros(STATE_SIZE), RESEED_COUNT, 0, true, pid)
    else
      st.(count := st.count - len)
  }

  /** A reseed leaves the cipher keyed from the seed (first call) or from the
      keystream XOR the seed (later calls), a wiped buffer, nothing to hand
      out, a full allowance, the flag set and the caller's pid. Without a
      reseed the allowance was larger than `len`, drops by exactly `len`, and
      nothing else changes. Either way the invariant holds afterwards. */
  lemma StirProperties(block: seq<bv32> --> seq<bv8>, st: GenState, len: nat, pid: int, seed: seq<bv8>)
    requires IsBlockFunction(block) && Inv(st) && |seed| == SEED_SIZE
    ensures var r := StirSpec(block, st, len, pid, seed);
      NeedsStir(st, len, pid) ==>
        r.buf == Zeros(STATE_SIZE) && r.have == 0 && r.count == RESEED_COUNT && r.initialized && r.stirPid == pid &&
        (!st.initialized ==> SeedOf(r.rs) == seed) &&
        (st.initialized ==> forall i :: 0 <= i < SEED_SIZE ==> SeedOf(r.rs)[i] == Xor(RekeyStream(block, st)[i], seed[i]))
    ensures !NeedsStir(st, len, pid) ==>
      st.count > len && StirSpec(block, st, len, pid, seed) == st.(count := st.count - len)
    ensures Inv(StirSpec(block, st, len, pid, seed))
  {
    if NeedsStir(st, len, pid) {
      if st.initialized {
        RekeyProperties(block, st, Some(seed));
      } else {
        InitLayout(seed);
      }
    }
  }

  /** As written, the first stir keys the cipher with the same public words
      in every process: each key word and both nonce words are 0x5A5A5A5A,
      whatever the pid, the request size or the earlier state. */
  lemma ShimSeedKey(block: seq<bv32> --> seq<bv8>, st: GenState, len: nat, pid: int)
    requires IsBlockFunction(block) && Inv(st) && !st.initialized
    ensures var r := StirSpec(block, st, len, pid, SHIM_SEED).rs;
      |r| == 16 && r[..4] == SIGMA_WORDS && Counter(r) == 0 &&
      (forall i :: 4 <= i < 12 ==> r[i] == 0x5A5A5A5A) && r[14] == r[15] == 0x5A5A5A5A
  {
    var seed := SHIM_SEED;
    InitLayout(seed);
    var r := InitSpec(seed);
    var k, iv := seed[..KEY_SIZE], seed[KEY_SIZE..];
    forall i | 0 <= i < 8 ensures BytesToWords(k)[i] == 0x5A5A5A5A {
      assert k[4 * i .. 4 * i + 4] == [0x5A, 0x5A, 0x5A, 0x5A];
    }
    forall i | 0 <= i < 2 ensures BytesToWords(iv)[i] == 0x5A5A5A5A {
      assert iv[4 * i .. 4 * i + 4] == [0x5A, 0x5A, 0x5A, 0x5A];
    }
    assert r[4..12] == BytesToWords(k) && r[14..] == BytesToWords(iv);
    forall i | 4 <= i < 12 ensures r[i] == 0x5A5A5A5A {
      assert r[i] == r[4..12][i - 4];
    }
    assert r[14] == r[14..][0] && r[15] == r[14..][1];
  }

  // ---------------------------------------------------------------------------
  // _rs_random_u32 and atheme_arc4random
  // ---------------------------------------------------------------------------

  /** The first unconsumed byte of the buffer: rs_buf + 1024 - rs_have. */
  function Next(st: GenState): nat
    requires st.have <= STATE_SIZE
  {
    STATE_SIZE - st.have
  }

  /** Hand out the next `n` bytes: copy them, wipe them, consume them. */
  function Take(st: GenState, n: nat): (r: (seq<bv8>, GenState))
    requires |st.buf| == STATE_SIZE && n <= st.have <= STATE_SIZE
  {
    var pos := Next(st);
    (st.buf[pos .. pos + n], st.(buf := st.buf[..pos] + Zeros(n) + st.buf[pos + n ..], have := st.have - n))
  }

  /** Taking bytes keeps the invariant: the bytes handed out are the next `n`
      of the buffer, they join the consumed and zeroed part, and the bytes
      after them are untouched. */
  lemma TakeProperties(st: GenState, n: nat)
    requires Inv(st) && n <= st.have
    ensures var (out, r) := Take(st, n);
      Inv(r) && |out| == n && r.have == st.have - n && r.rs == st.rs && r.count == st.count &&
      r.initialized == st.initialized && r.stirPid == st.stirPid &&
      r.buf[Next(r)..] == st.buf[Next(r)..] && r.buf[Next(st) .. Next(r)] == Zeros(n) &&
      forall i :: 0 <= i < n ==> out[i] == st.buf[Next(st) + i]
  {
    var (out, r) := Take(st, n);
    assert r.buf[Next(st) .. Next(r)] == Zeros(n);
  }

  /** The state _rs_random_u32 reads from: after the stir for 4 bytes, and
      after a rekey if fewer than 4 bytes remain. */
  function Refill(block: seq<bv32> --> seq<bv8>, st: GenState, pid: int, seed: seq<bv8>): (r: GenState)
    requires IsBlockFunction(block) && Inv(st) && |seed| == SEED_SIZE
    ensures Inv(r) && 4 <= r.have
  {
    StirProperties(block, st, 4, pid, seed);
    var s1 := StirSpec(block, st, 4, pid, seed);
    RekeyProperties(block, s1, None);
    if s1.have < 4 then RekeySpec(block, s1, None) else s1
  }

  /** _rs_random_u32: the next 4 bytes of the refilled buffer read as a
      (little-endian) word, and wiped. */
  function RandomU32Spec(block: seq<bv32> --> seq<bv8>, st: GenState, pid: int, seed: seq<bv8>): (r: (bv32, GenState))
    requires IsBlockFunction(block) && Inv(st) && |seed| == SEED_SIZE
    ensures Inv(r.1)
  {
    var s := Refill(block, st, pid, seed);
    TakeProperties(s, 4);
    var t := Take(s, 4);
    (U8To32(t.0), t.1)
  }

  /** The word is read from offset 1024 - rs_have of the refilled buffer, those
      4 bytes are zero afterwards, 4 fewer bytes remain, nothing after them
      changes, and the invariant holds. */
  lemma RandomU32Properties(block: seq<bv32> --> seq<bv8>, st: GenState, pid: int, seed: seq<bv8>)
    requires IsBlockFunction(block) && Inv(st) && |seed| == SEED_SIZE
    ensures var s := Refill(block, st, pid, seed);
      var v, r := RandomU32Spec(block, st, pid, seed).0, RandomU32Spec(block, st, pid, seed).1;
      v == U8To32(s.buf[Next(s) .. Next(s) + 4]) &&
      r.have == s.have - 4 && r.buf[Next(s) .. Next(s) + 4] == Zeros(4) &&
      r.buf[Next(r)..] == s.buf[Next(r)..] && r.rs == s.rs && Inv(r)
  {
    var s := Refill(block, st, pid, seed);
    TakeProperties(s, 4);
    assert Take(s, 4).0 == s.buf[Next(s) .. Next(s) + 4];
  }

  // ---------------------------------------------------------------------------
  // atheme_arc4random_buf
  // ---------------------------------------------------------------------------

  function Min(a: nat, b: nat): nat
  {
    if a < b then a else b
  }

  /** One pass of the `while (len)` loop: copy out what the buffer can give,
      then rekey if it is empty. Returns the bytes copied. */
  function FillStep(block: seq<bv32> --> seq<bv8>, st: GenState, len: nat): (r: (seq<bv8>, GenState))
    requires IsBlockFunction(block) && Inv(st)
  {
    if st.have == 0 then ([], RekeySpec(block, st, None))
    else
      var t := Take(st, Min(len, st.have));
      (t.0, if t.1.have == 0 then RekeySpec(block, t.1, None) else t.1)
  }

  /** A pass copies the next Min(len, rs_have) bytes of the buffer, keeps the
      invariant and leaves something to hand out. */
  lemma FillStepProperties(block: seq<bv32> --> seq<bv8>, st: GenState, len: nat)
    requires IsBlockFunction(block) && Inv(st)
    ensures var out, r := FillStep(block, st, len).0, FillStep(block, st, len).1;
      Inv(r) && r.have > 0 && |out| == Min(len, st.have) &&
      out == st.buf[Next(st) .. Next(st) + |out|]
  {
    if st.have > 0 {
      TakeProperties(st, Min(len, st.have));
      var t := Take(st, Min(len, st.have));
      RekeyProperties(block, t.1, None);
      assert t.0 == st.buf[Next(st) .. Next(st) + |t.0|];
    } else {
      RekeyProperties(block, st, None);
    }
  }

  /** The loop of atheme_arc4random_buf: each pass either shrinks `len` or
      rekeys an empty buffer, after which it is no longer empty. */
  function FillLoop(block: seq<bv32> --> seq<bv8>, st: GenState, len: nat): (r: (seq<bv8>, GenState))
    requires IsBlockFunction(block) && Inv(st)
    decreases len, if st.have == 0 then 1 else 0
  {
    if len == 0 then ([], st)
    else
      FillStepProperties(block, st, len);
      var step := FillStep(block, st, len);
      var rest := FillLoop(block, step.1, len - |step.0|);
      (step.0 + rest.0, rest.1)
  }

  /** The loop produces exactly `len` bytes and keeps the invariant, so every
      byte it copied out of the buffer is zero there afterwards; with
      `len == 0` it does nothing. */
  lemma {:induction false} FillLoopProperties(block: seq<bv32> --> seq<bv8>, st: GenState, len: nat)
    requires IsBlockFunction(block) && Inv(st)
    ensures |FillLoop(block, st, len).0| == len && Inv(FillLoop(block, st, len).1)
    ensures len == 0 ==> FillLoop(block, st, len).1 == st
    decreases len, if st.have == 0 then 1 else 0
  {
    if len > 0 {
      FillStepProperties(block, st, len);
      var step := FillStep(block, st, len);
      FillLoopProperties(block, step.1, len - |step.0|);
    }
  }

  /** One pass of the loop followed by the rest of it, for the `rest` bytes
      the pass leaves to do. */
  lemma FillLoopStep(block: seq<bv32> --> seq<bv8>, st: GenState, len: nat, rest: nat)
    requires IsBlockFunction(block) && Inv(st) && len > 0
    requires rest == len - |FillStep(block, st, len).0|
    ensures var step := FillStep(block, st, len);
      Inv(step.1) && FillLoop(block, st, len) == (step.0 + FillLoop(block, step.1, rest).0, FillLoop(block, step.1, rest).1)
  {
    FillStepProperties(block, st, len);
  }

  /** When the buffer holds at least `len` bytes the output is simply the next
      `len` bytes of the buffer. */
  lemma FillLoopFromBuffer(block: seq<bv32> --> seq<bv8>, st: GenState, len: nat)
    requires IsBlockFunction(block) && Inv(st) && 0 < len <= st.have
    ensures FillLoop(block, st, len).0 == st.buf[Next(st) .. Next(st) + len]
  {
    FillStepProperties(block, st, len);
    assert FillLoop(block, FillStep(block, st, len).1, 0).0 == [];
  }

  /** atheme_arc4random_buf: stir for `len` bytes, then the loop. */
  function BufSpec(block: seq<bv32> --> seq<bv8>, st: GenState, len: nat, pid: int, seed: seq<bv8>): (r: (seq<bv8>, GenState))
    requires IsBlockFunction(block) && Inv(st) && |seed| == SEED_SIZE
  {
    StirProperties(block, st, len, pid, seed);
    FillLoop(block, StirSpec(block, st, len, pid, seed), len)
  }

  /** Exactly `len` bytes come out and the invariant holds afterwards. */
  lemma BufProperties(block: seq<bv32> --> seq<bv8>, st: GenState, len: nat, pid: int, seed: seq<bv8>)
    requires IsBlockFunction(block) && Inv(st) && |seed| == SEED_SIZE
    ensures |BufSpec(block, st, len, pid, seed).0| == len && Inv(BufSpec(block, st, len, pid, seed).1)
  {
    StirProperties(block, st, len, pid, seed);
    FillLoopProperties(block, StirSpec(block, st, len, pid, seed), len);
  }

  // ---------------------------------------------------------------------------
  // atheme_arc4random_uniform
  // ---------------------------------------------------------------------------

  /** The rejection loop with at most `fuel` draws: a candidate below `min` is
      drawn again, the first one at or above it is reduced modulo `bound`, so
      any value returned is below `bound`. None when the draws run out. */
  function UniformLoop(block: seq<bv32> --> seq<bv8>, st: GenState, bound: nat, pid: int, seed: seq<bv8>, fuel: nat)
    : (r: (Option<nat>, GenState))
    requires IsBlockFunction(block) && Inv(st) && |seed| == SEED_SIZE && 2 <= bound < WORD
    ensures Inv(r.1) && (r.0.Some? ==> r.0.value < bound)
    decreases fuel
  {
    if fuel == 0 then (None, st)
    else
      var draw := RandomU32Spec(block, st, pid, seed);
      var accepted := Accept(draw.0, bound);
      if accepted.Some? then (accepted, draw.1)
      else UniformLoop(block, draw.1, bound, pid, seed, fuel - 1)
  }

  /** A draw below `min` is rejected and the loop goes on from the state
      after the draw. */
  lemma UniformLoopReject(block: seq<bv32> --> seq<bv8>, st: GenState, s1: GenState, candidate: bv32,
                          bound: nat, pid: int, seed: seq<bv8>, next: nat)
    requires IsBlockFunction(block) && Inv(st) && |seed| == SEED_SIZE && 2 <= bound < WORD
    requires (candidate, s1) == RandomU32Spec(block, st, pid, seed) && Accept(candidate, bound).None?
    ensures Inv(s1)
    ensures UniformLoop(block, st, bound, pid, seed, next + 1) == UniformLoop(block, s1, bound, pid, seed, next)
  {
  }

  /** A draw at or above `min` ends the loop with the draw modulo `bound`. */
  lemma UniformLoopAccept(block: seq<bv32> --> seq<bv8>, st: GenState, s1: GenState, candidate: bv32,
                          bound: nat, pid: int, seed: seq<bv8>, fuel: nat)
    requires IsBlockFunction(block) && Inv(st) && |seed| == SEED_SIZE && 2 <= bound < WORD && fuel > 0
    requires (candidate, s1) == RandomU32Spec(block, st, pid, seed) && candidate as int >= MinAccepted(bound)
    ensures UniformLoop(block, st, bound, pid, seed, fuel) == (Some(candidate as int % bound), s1)
  {
  }

  /** atheme_arc4random_uniform: 0 for a bound below 2 (without drawing),
      otherwise the rejection loop. */
  function UniformSpec(block: seq<bv32> --> seq<bv8>, st: GenState, bound: nat, pid: int, seed: seq<bv8>, fuel: nat)
    : (r: (Option<nat>, GenState))
    requires IsBlockFunction(block) && Inv(st) && |seed| == SEED_SIZE && bound < WORD
  {
    if bound < 2 then (Some(0), st) else UniformLoop(block, st, bound, pid, seed, fuel)
  }

  /** A bound below 2 gives 0 and leaves the generator alone; otherwise any
      value returned is below `bound`. The invariant holds afterwards. */
  lemma UniformProperties(block: seq<bv32> --> seq<bv8>, st: GenState, bound: nat, pid: int, seed: seq<bv8>, fuel: nat)
    requires IsBlockFunction(block) && Inv(st) && |seed| == SEED_SIZE && bound < WORD
    ensures bound < 2 ==> UniformSpec(block, st, bound, pid, seed, fuel) == (Some(0), st)
    ensures var r := UniformSpec(block, st, bound, pid, seed, fuel);
      Inv(r.1) && (bound >= 2 && r.0.Some? ==> r.0.value < bound)
  {
  }
}
