/**
 * The ChaCha20 keystream generator of libathemecore/arc4random.c: key and nonce
 * setup (_rs_chacha_keysetup, _rs_chacha_ivsetup) and the block loop of
 * _rs_chacha_encrypt, in Bernstein's original layout (constant words 0-3,
 * key words 4-11, a 64-bit block counter in words 12-13, a 64-bit nonce in
 * words 14-15).
 *
 * The pure functions below are the specification (the quarter round and the
 * 20-round block of sections 2.1 and 2.3 of RFC 8439); the methods work in
 * place on arrays as the C code does and are proved against them.
 */
module ChaCha {
  import opened Codec

  const KEY_SIZE: nat := 32      // CHACHA20_KEYSZ
  const IV_SIZE: nat := 8        // CHACHA20_IVSZ
  const BLOCK_SIZE: nat := 64    // CHACHA20_BLOCKSZ
  const STATE_SIZE: nat := 1024  // CHACHA20_STATESZ: 16 blocks, the size of the generator's buffer
  const DOUBLE_ROUNDS: nat := 10 // the round loop runs i = 20, 18, ..., 2

  /** "expand 32-byte k" */
  const SIGMA: seq<bv8> :=
    [0x65, 0x78, 0x70, 0x61, 0x6E, 0x64, 0x20, 0x33, 0x32, 0x2D, 0x62, 0x79, 0x74, 0x65, 0x20, 0x6B]

  /** "expand 16-byte k": declared next to SIGMA but never read by the key setup. */
  const TAU: seq<bv8> :=
    [0x65, 0x78, 0x70, 0x61, 0x6E, 0x64, 0x20, 0x31, 0x36, 0x2D, 0x62, 0x79, 0x74, 0x65, 0x20, 0x6B]

  /** The four constant words: SIGMA read as little-endian words. */
  const SIGMA_WORDS: seq<bv32> := [0x61707865, 0x3320646E, 0x79622D32, 0x6B206574]

  // ---------------------------------------------------------------------------
  // The block function (specification)
  // ---------------------------------------------------------------------------

  /** CHACHA20_ROTL32: rotate left by `w` bits, written as two shifts. */
  function Rotl(v: bv32, w: bv32): bv32
    requires 0 < w < 32
  {
    (v << w) | (v >> (32 - w))
  }

  /** The shift form used by the macro is a rotation for each amount the quarter round uses. */
  lemma RotlIsRotation(v: bv32)
    ensures Rotl(v, 16) == v.RotateLeft(16) && Rotl(v, 12) == v.RotateLeft(12)
    ensures Rotl(v, 8) == v.RotateLeft(8) && Rotl(v, 7) == v.RotateLeft(7)
  {
  }

  /** Addition modulo 2^32 (`CHACHA20_U32V(v + w)`). */
  function Plus(v: bv32, w: bv32): bv32
  {
    v + w
  }

  /** Exclusive or of two words. */
  function Xor32(v: bv32, w: bv32): bv32
  {
    v ^ w
  }

  /** The ChaCha quarter round on four words (CHACHA20_QUARTERROUND; section 2.1 of RFC 8439). */
  function QuarterRound(a: bv32, b: bv32, c: bv32, d: bv32): (bv32, bv32, bv32, bv32)
  {
    var a1 := Plus(a, b);   var d1 := Rotl(Xor32(d, a1), 16);
    var c1 := Plus(c, d1);  var b1 := Rotl(Xor32(b, c1), 12);
    var a2 := Plus(a1, b1); var d2 := Rotl(Xor32(d1, a2), 8);
    var c2 := Plus(c1, d2); var b2 := Rotl(Xor32(b1, c2), 7);
    (a2, b2, c2, d2)
  }

  /** The quarter round applied to words `a`, `b`, `c`, `d` of a 16-word state. */
  function QuarterRoundAt(x: seq<bv32>, a: nat, b: nat, c: nat, d: nat): (r: seq<bv32>)
    requires |x| == 16 && a < 16 && b < 16 && c < 16 && d < 16
    requires a != b && a != c && a != d && b != c && b != d && c != d
    ensures |r| == 16
  {
    var q := QuarterRound(x[a], x[b], x[c], x[d]);
    x[a := q.0][b := q.1][c := q.2][d := q.3]
  }

  /** One line pair of CHACHA20_QUARTERROUND on a state value: word `p` gains
      word `q`, then word `r` becomes (word r ^ new word p) rotated by `n`. */
  function AddXorRotateAt(x: seq<bv32>, p: nat, q: nat, r: nat, n: bv32): (y: seq<bv32>)
    requires |x| == 16 && p < 16 && q < 16 && r < 16 && p != r && 0 < n < 32
    ensures |y| == 16
  {
    var sum := Plus(x[p], x[q]);
    x[p := sum][r := Rotl(Xor32(x[r], sum), n)]
  }

  /** Writing words a, d, c, b and then a, d, c, b again leaves only the
      second values, whatever the element type. */
  lemma OverwriteTwice<T>(x: seq<T>, a: nat, b: nat, c: nat, d: nat, a1: T, b1: T, c1: T, d1: T, a2: T, b2: T, c2: T, d2: T)
    requires a < |x| && b < |x| && c < |x| && d < |x|
    requires a != b && a != c && a != d && b != c && b != d && c != d
    ensures x[a := a1][d := d1][c := c1][b := b1][a := a2][d := d2][c := c2][b := b2] == x[a := a2][b := b2][c := c2][d := d2]
  {
  }

  /** The macro's four line pairs, run one after the other on the state
      (each reading the words the earlier ones wrote), are the quarter
      round of words a, b, c, d. */
  lemma QuarterRoundPairs(x: seq<bv32>, a: nat, b: nat, c: nat, d: nat)
    requires |x| == 16 && a < 16 && b < 16 && c < 16 && d < 16
    requires a != b && a != c && a != d && b != c && b != d && c != d
    ensures AddXorRotateAt(AddXorRotateAt(AddXorRotateAt(AddXorRotateAt(x, a, b, d, 16), c, d, b, 12), a, b, d, 8), c, d, b, 7)
      == QuarterRoundAt(x, a, b, c, d)
  {
    var a1 := Plus(x[a], x[b]);   var d1 := Rotl(Xor32(x[d], a1), 16);
    var c1 := Plus(x[c], d1);     var b1 := Rotl(Xor32(x[b], c1), 12);
    var a2 := Plus(a1, b1);       var d2 := Rotl(Xor32(d1, a2), 8);
    var c2 := Plus(c1, d2);       var b2 := Rotl(Xor32(b1, c2), 7);
    var x1 := AddXorRotateAt(x, a, b, d, 16);
    assert x1 == x[a := a1][d := d1];
    var x2 := AddXorRotateAt(x1, c, d, b, 12);
    assert x2 == x1[c := c1][b := b1];
    var x3 := AddXorRotateAt(x2, a, b, d, 8);
    assert x3 == x2[a := a2][d := d2];
    var x4 := AddXorRotateAt(x3, c, d, b, 7);
    assert x4 == x3[c := c2][b := b2];
    OverwriteTwice(x, a, b, c, d, a1, b1, c1, d1, a2, b2, c2, d2);
    assert QuarterRound(x[a], x[b], x[c], x[d]) == (a2, b2, c2, d2);
  }

  /** The word indices `(a, b, c, d)` of one CHACHA20_QUARTERROUND invocation. */
  type Quad = (nat, nat, nat, nat)

  /** Four distinct indices into the 16-word state. */
  predicate QuadOk(q: Quad)
  {
    var (a, b, c, d) := q;
    a < 16 && b < 16 && c < 16 && d < 16 && a != b && a != c && a != d && b != c && b != d && c != d
  }

  predicate ScheduleOk(sched: seq<Quad>)
  {
    forall i :: 0 <= i < |sched| ==> QuadOk(sched[i])
  }

  /** The quarter rounds down the four columns of the 4x4 state. */
  const COLUMNS: seq<Quad> := [(0, 4, 8, 12), (1, 5, 9, 13), (2, 6, 10, 14), (3, 7, 11, 15)]

  /** The quarter rounds along the four diagonals of the 4x4 state. */
  const DIAGONALS: seq<Quad> := [(0, 5, 10, 15), (1, 6, 11, 12), (2, 7, 8, 13), (3, 4, 9, 14)]

  /** The first `k` quarter rounds of `sched`, in order. */
  function QuarterRounds(x: seq<bv32>, sched: seq<Quad>, k: nat): (r: seq<bv32>)
    requires |x| == 16 && ScheduleOk(sched) && k <= |sched|
    ensures |r| == 16
  {
    if k == 0 then x
    else
      var (a, b, c, d) := sched[k - 1];
      QuarterRoundAt(QuarterRounds(x, sched, k - 1), a, b, c, d)
  }

  /** A column round: the four column quarter rounds. */
  function ColumnRound(x: seq<bv32>): (r: seq<bv32>)
    requires |x| == 16
    ensures |r| == 16
  {
    QuarterRounds(x, COLUMNS, 4)
  }

  /** A diagonal round: the four diagonal quarter rounds. */
  function DiagonalRound(x: seq<bv32>): (r: seq<bv32>)
    requires |x| == 16
    ensures |r| == 16
  {
    QuarterRounds(x, DIAGONALS, 4)
  }

  /** One pass of the round loop: a column round, then a diagonal round. */
  function DoubleRound(x: seq<bv32>): (r: seq<bv32>)
    requires |x| == 16
    ensures |r| == 16
  {
    DiagonalRound(ColumnRound(x))
  }

  /** One more quarter round of a schedule runs the next quadruple on the state so far. */
  lemma QuarterRoundsNext(x: seq<bv32>, sched: seq<Quad>, k: nat)
    requires |x| == 16 && ScheduleOk(sched) && k < |sched|
    ensures QuarterRounds(x, sched, k + 1)
      == QuarterRoundAt(QuarterRounds(x, sched, k), sched[k].0, sched[k].1, sched[k].2, sched[k].3)
  {
  }

  /** A column round is the four column quarter rounds one after the other. */
  lemma ColumnRoundQuarters(x: seq<bv32>, y1: seq<bv32>, y2: seq<bv32>, y3: seq<bv32>, y4: seq<bv32>)
    requires |x| == 16
    requires y1 == QuarterRoundAt(x, 0, 4, 8, 12) && y2 == QuarterRoundAt(y1, 1, 5, 9, 13)
    requires y3 == QuarterRoundAt(y2, 2, 6, 10, 14) && y4 == QuarterRoundAt(y3, 3, 7, 11, 15)
    ensures ColumnRound(x) == y4
  {
    assert ScheduleOk(COLUMNS);
    QuarterRoundsNext(x, COLUMNS, 0);
    QuarterRoundsNext(x, COLUMNS, 1);
    QuarterRoundsNext(x, COLUMNS, 2);
    QuarterRoundsNext(x, COLUMNS, 3);
  }

  /** A diagonal round is the four diagonal quarter rounds one after the other. */
  lemma DiagonalRoundQuarters(x: seq<bv32>, y1: seq<bv32>, y2: seq<bv32>, y3: seq<bv32>, y4: seq<bv32>)
    requires |x| == 16
    requires y1 == QuarterRoundAt(x, 0, 5, 10, 15) && y2 == QuarterRoundAt(y1, 1, 6, 11, 12)
    requires y3 == QuarterRoundAt(y2, 2, 7, 8, 13) && y4 == QuarterRoundAt(y3, 3, 4, 9, 14)
    ensures DiagonalRound(x) == y4
  {
    assert ScheduleOk(DIAGONALS);
    QuarterRoundsNext(x, DIAGONALS, 0);
    QuarterRoundsNext(x, DIAGONALS, 1);
    QuarterRoundsNext(x, DIAGONALS, 2);
    QuarterRoundsNext(x, DIAGONALS, 3);
  }

  /** `n` double rounds. */
  function Rounds(x: seq<bv32>, n: nat): (r: seq<bv32>)
    requires |x| == 16
    ensures |r| == 16
  {
    if n == 0 then x else DoubleRound(Rounds(x, n - 1))
  }

  /** Word-wise addition modulo 2^32 (the add-back of the input state). */
  function AddWords(x: seq<bv32>, y: seq<bv32>): (r: seq<bv32>)
    requires |x| == |y|
    ensures |r| == |x|
  {
    seq(|x|, i requires 0 <= i < |x| => Plus(x[i], y[i]))
  }

  /** The ChaCha20 block function: 20 rounds, then the input state added back word by word. */
  function Block(j: seq<bv32>): (r: seq<bv32>)
    requires |j| == 16
    ensures |r| == 16
  {
    AddWords(Rounds(j, DOUBLE_ROUNDS), j)
  }

  /** The 64 keystream bytes of one block. */
  function KeystreamBlock(j: seq<bv32>): (r: seq<bv8>)
    requires |j| == 16
    ensures |r| == BLOCK_SIZE
  {
    WordsToBytes(Block(j))
  }

  // ---------------------------------------------------------------------------
  // The 64-bit block counter in words 12 (low) and 13 (high)
  // ---------------------------------------------------------------------------

  /** The block counter as one 64-bit value. */
  function Counter(s: seq<bv32>): bv64
    requires |s| == 16
  {
    (s[13] as bv64 << 32) | s[12] as bv64
  }

  /** `j[12]++; if (!j[12]) j[13]++;` */
  function IncrementCounter(s: seq<bv32>): (r: seq<bv32>)
    requires |s| == 16
    ensures |r| == 16
  {
    var lo := s[12] + 1;
    s[12 := lo][13 := if lo == 0 then s[13] + 1 else s[13]]
  }

  /** The counter pair counts modulo 2^64, the high word moves only when the
      low word wraps to 0, and no other word changes. */
  lemma IncrementCounterValue(s: seq<bv32>)
    requires |s| == 16
    ensures Counter(IncrementCounter(s)) == Counter(s) + 1
    ensures IncrementCounter(s)[13] != s[13] ==> IncrementCounter(s)[12] == 0
    ensures forall i :: 0 <= i < 16 && i != 12 && i != 13 ==> IncrementCounter(s)[i] == s[i]
  {
  }

  /** The state after `n` blocks. */
  function AdvanceCounter(s: seq<bv32>, n: nat): (r: seq<bv32>)
    requires |s| == 16
    ensures |r| == 16
    decreases n
  {
    if n == 0 then s else AdvanceCounter(IncrementCounter(s), n - 1)
  }

  /** One more block is one more increment. */
  lemma {:induction false} AdvanceCounterSucc(s: seq<bv32>, n: nat)
    requires |s| == 16
    ensures AdvanceCounter(s, n + 1) == IncrementCounter(AdvanceCounter(s, n))
    decreases n
  {
    if n > 0 {
      AdvanceCounterSucc(IncrementCounter(s), n - 1);
    }
  }

  /** Each block moves the 64-bit counter on by one (modulo 2^64), and no
      number of blocks changes any word other than 12 and 13. */
  lemma {:induction false} AdvanceCounterValue(s: seq<bv32>, n: nat)
    requires |s| == 16
    ensures Counter(AdvanceCounter(s, n + 1)) == Counter(AdvanceCounter(s, n)) + 1
    ensures forall i :: 0 <= i < 16 && i != 12 && i != 13 ==> AdvanceCounter(s, n)[i] == s[i]
    decreases n
  {
    AdvanceCounterSucc(s, n);
    IncrementCounterValue(AdvanceCounter(s, n));
    if n > 0 {
      IncrementCounterValue(s);
      AdvanceCounterValue(IncrementCounter(s), n - 1);
    }
  }

  // ---------------------------------------------------------------------------
  // The keystream
  // ---------------------------------------------------------------------------

  /** A block function: 64 bytes for every 16-word state. */
  ghost predicate IsBlockFunction(block: seq<bv32> --> seq<bv8>)
  {
    forall s {:trigger block.requires(s)} {:trigger block(s)} :: |s| == 16 ==> block.requires(s) && |block(s)| == BLOCK_SIZE
  }

  /** Counter mode: the blocks of `n` consecutive counter values starting from state `j`. */
  function CounterStream(block: seq<bv32> --> seq<bv8>, j: seq<bv32>, n: nat): (r: seq<bv8>)
    requires IsBlockFunction(block) && |j| == 16
    ensures |r| == BLOCK_SIZE * n
    decreases n
  {
    if n == 0 then [] else block(j) + CounterStream(block, IncrementCounter(j), n - 1)
  }

  /** The number of blocks needed for `bytes` bytes: ceil(bytes / 64). */
  function Blocks(bytes: nat): (n: nat)
    ensures BLOCK_SIZE * n >= bytes && (n > 0 ==> BLOCK_SIZE * (n - 1) < bytes)
  {
    (bytes + BLOCK_SIZE - 1) / BLOCK_SIZE
  }

  /** The first `bytes` bytes of the counter-mode stream. */
  function CounterBytes(block: seq<bv32> --> seq<bv8>, j: seq<bv32>, bytes: nat): (r: seq<bv8>)
    requires IsBlockFunction(block) && |j| == 16
    ensures |r| == bytes
  {
    CounterStream(block, j, Blocks(bytes))[..bytes]
  }

  /** The ChaCha20 keystream: `n` blocks. */
  function Keystream(j: seq<bv32>, n: nat): (r: seq<bv8>)
    requires |j| == 16
    ensures |r| == BLOCK_SIZE * n
  {
    CounterStream(KeystreamBlock, j, n)
  }

  /** The first `bytes` bytes of the ChaCha20 keystream. */
  function KeystreamBytes(j: seq<bv32>, bytes: nat): (r: seq<bv8>)
    requires |j| == 16
    ensures |r| == bytes
  {
    CounterBytes(KeystreamBlock, j, bytes)
  }

  /** Appending one block to the stream. */
  lemma {:induction false} CounterStreamSnoc(block: seq<bv32> --> seq<bv8>, j: seq<bv32>, n: nat)
    requires IsBlockFunction(block) && |j| == 16
    ensures CounterStream(block, j, n + 1) == CounterStream(block, j, n) + block(AdvanceCounter(j, n))
    decreases n
  {
    if n > 0 {
      var b, j1, m := block(j), IncrementCounter(j), n - 1;
      CounterStreamSnoc(block, j1, m);
      assert CounterStream(block, j, n) == b + CounterStream(block, j1, m);
      assert CounterStream(block, j, n + 1) == b + CounterStream(block, j1, n);
      assert AdvanceCounter(j, n) == AdvanceCounter(j1, m);
    }
  }

  /** A slice past a 64-byte head is a slice of the tail. */
  lemma SliceAfterBlock(head: seq<bv8>, tail: seq<bv8>, lo: nat, hi: nat)
    requires |head| == BLOCK_SIZE && lo <= hi <= |tail|
    ensures (head + tail)[BLOCK_SIZE + lo .. BLOCK_SIZE + hi] == tail[lo..hi]
  {
  }

  /** Block `k` of the stream is the block function of the state advanced `k` times. */
  lemma {:induction false} CounterStreamAt(block: seq<bv32> --> seq<bv8>, j: seq<bv32>, n: nat, k: nat)
    requires IsBlockFunction(block) && |j| == 16 && k < n
    ensures CounterStream(block, j, n)[BLOCK_SIZE * k .. BLOCK_SIZE * (k + 1)] == block(AdvanceCounter(j, k))
    decreases k
  {
    var b, j1 := block(j), IncrementCounter(j);
    assert CounterStream(block, j, n) == b + CounterStream(block, j1, n - 1);
    if k > 0 {
      CounterStreamAt(block, j1, n - 1, k - 1);
      SliceAfterBlock(b, CounterStream(block, j1, n - 1), BLOCK_SIZE * (k - 1), BLOCK_SIZE * k);
      assert AdvanceCounter(j, k) == AdvanceCounter(j1, k - 1);
    }
  }

  /** `bytes` in (64k, 64(k + 1)] take k + 1 blocks. */
  lemma BlocksOfLast(k: nat, n: nat)
    requires 0 < n <= BLOCK_SIZE
    ensures Blocks(BLOCK_SIZE * k + n) == k + 1
  {
  }

  /** The stream bytes up to the end of block `k`, or part of it, are those up
      to its start followed by a prefix of block `k`. */
  lemma CounterBytesSnoc(block: seq<bv32> --> seq<bv8>, j: seq<bv32>, k: nat, n: nat)
    requires IsBlockFunction(block) && |j| == 16 && n <= BLOCK_SIZE
    ensures CounterBytes(block, j, BLOCK_SIZE * k + n)
         == CounterBytes(block, j, BLOCK_SIZE * k) + block(AdvanceCounter(j, k))[..n]
  {
    assert Blocks(BLOCK_SIZE * k) == k;
    CounterStreamSnoc(block, j, k);
    if n > 0 {
      BlocksOfLast(k, n);
    }
  }

  // ---------------------------------------------------------------------------
  // Key and nonce setup
  // ---------------------------------------------------------------------------

  /** _rs_chacha_keysetup: the 32 key bytes read as little-endian words into
      words 4-11 (in two halves of 16 bytes), then SIGMA likewise into words
      0-3; words 12-15 are not touched. */
  function KeySetupSpec(s: seq<bv32>, k: seq<bv8>): (r: seq<bv32>)
    requires |s| == 16 && |k| == KEY_SIZE
    ensures |r| == 16
  {
    s[4 := U8To32(k[0..4])][5 := U8To32(k[4..8])][6 := U8To32(k[8..12])][7 := U8To32(k[12..16])]
     [8 := U8To32(k[16..20])][9 := U8To32(k[20..24])][10 := U8To32(k[24..28])][11 := U8To32(k[28..32])]
     [0 := U8To32(SIGMA[0..4])][1 := U8To32(SIGMA[4..8])][2 := U8To32(SIGMA[8..12])][3 := U8To32(SIGMA[12..16])]
  }

  /** SIGMA read as little-endian words. */
  lemma SigmaWords()
    ensures BytesToWords(SIGMA) == SIGMA_WORDS
  {
    assert U8To32(SIGMA[0..4]) == SIGMA_WORDS[0];
    assert U8To32(SIGMA[4..8]) == SIGMA_WORDS[1];
    assert U8To32(SIGMA[8..12]) == SIGMA_WORDS[2];
    assert U8To32(SIGMA[12..16]) == SIGMA_WORDS[3];
  }

  /** The first half of the key, in words 4-7. */
  lemma KeySetupKeyLow(s: seq<bv32>, k: seq<bv8>)
    requires |s| == 16 && |k| == KEY_SIZE
    ensures KeySetupSpec(s, k)[4..8] == BytesToWords(k)[..4]
  {
    var r, kw := KeySetupSpec(s, k), BytesToWords(k);
    assert r[4] == kw[0];
    assert r[5] == kw[1];
    assert r[6] == kw[2];
    assert r[7] == kw[3];
  }

  /** The second half of the key, in words 8-11. */
  lemma KeySetupKeyHigh(s: seq<bv32>, k: seq<bv8>)
    requires |s| == 16 && |k| == KEY_SIZE
    ensures KeySetupSpec(s, k)[8..12] == BytesToWords(k)[4..]
  {
    var r, kw := KeySetupSpec(s, k), BytesToWords(k);
    assert r[8] == kw[4];
    assert r[9] == kw[5];
    assert r[10] == kw[6];
    assert r[11] == kw[7];
  }

  /** After the key setup the state is the constant "expand 32-byte k", the key
      read as words, and the old counter and nonce words; with
      WordsToBytesOfBytesToWords the key bytes are read back unchanged. */
  lemma KeySetupLayout(s: seq<bv32>, k: seq<bv8>)
    requires |s| == 16 && |k| == KEY_SIZE
    ensures KeySetupSpec(s, k) == SIGMA_WORDS + BytesToWords(k) + s[12..]
  {
    var r, kw := KeySetupSpec(s, k), BytesToWords(k);
    SigmaWords();
    assert r[..4] == SIGMA_WORDS;
    KeySetupKeyLow(s, k);
    KeySetupKeyHigh(s, k);
    assert r[4..12] == r[4..8] + r[8..12];
    assert kw == kw[..4] + kw[4..];
    assert r == r[..4] + r[4..12] + r[12..];
  }

  /** _rs_chacha_ivsetup: the counter words 12 and 13 set to zero, the 8 nonce
      bytes read as little-endian words into words 14-15, words 0-11 not touched. */
  function IvSetupSpec(s: seq<bv32>, iv: seq<bv8>): (r: seq<bv32>)
    requires |s| == 16 && |iv| == IV_SIZE
    ensures |r| == 16
  {
    s[12 := 0][13 := 0][14 := U8To32(iv[0..4])][15 := U8To32(iv[4..8])]
  }

  /** After the nonce setup the counter is zero, the nonce bytes are read back
      unchanged from words 14-15, and words 0-11 are as they were. */
  lemma IvSetupLayout(s: seq<bv32>, iv: seq<bv8>)
    requires |s| == 16 && |iv| == IV_SIZE
    ensures IvSetupSpec(s, iv)[..12] == s[..12]
    ensures IvSetupSpec(s, iv)[12] == 0 && IvSetupSpec(s, iv)[13] == 0 && Counter(IvSetupSpec(s, iv)) == 0
    ensures WordsToBytes(IvSetupSpec(s, iv)[14..]) == iv
  {
    var r := IvSetupSpec(s, iv);
    assert r[14..] == BytesToWords(iv);
    WordsToBytesOfBytesToWords(iv);
  }

  /** _rs_chacha_keysetup on the context's state array. */
  method KeySetup(ctx: array<bv32>, k: seq<bv8>)
    requires ctx.Length == 16 && |k| == KEY_SIZE
    modifies ctx
    ensures ctx[..] == KeySetupSpec(old(ctx[..]), k)
  {
    ctx[4] := U8To32(k[0..4]);
    ctx[5] := U8To32(k[4..8]);
    ctx[6] := U8To32(k[8..12]);
    ctx[7] := U8To32(k[12..16]);
    ctx[8] := U8To32(k[16..20]);
    ctx[9] := U8To32(k[20..24]);
    ctx[10] := U8To32(k[24..28]);
    ctx[11] := U8To32(k[28..32]);
    ctx[0] := U8To32(SIGMA[0..4]);
    ctx[1] := U8To32(SIGMA[4..8]);
    ctx[2] := U8To32(SIGMA[8..12]);
    ctx[3] := U8To32(SIGMA[12..16]);
  }

  /** _rs_chacha_ivsetup on the context's state array. */
  method IvSetup(ctx: array<bv32>, iv: seq<bv8>)
    requires ctx.Length == 16 && |iv| == IV_SIZE
    modifies ctx
    ensures ctx[..] == IvSetupSpec(old(ctx[..]), iv)
  {
    ctx[12] := 0;
    ctx[13] := 0;
    ctx[14] := U8To32(iv[0..4]);
    ctx[15] := U8To32(iv[4..8]);
  }

  // ---------------------------------------------------------------------------
  // The keystream generator, in place
  // ---------------------------------------------------------------------------

  /** One line pair of CHACHA20_QUARTERROUND on the working array:
      `x[p] += x[q]; x[r] = CHACHA20_ROTATE(x[r] ^ x[p], n);`. */
  method AddXorRotate(x: array<bv32>, p: nat, q: nat, r: nat, n: bv32)
    requires x.Length == 16 && p < 16 && q < 16 && r < 16 && p != q && p != r && q != r && 0 < n < 32
    modifies x
    ensures x[..] == AddXorRotateAt(old(x[..]), p, q, r, n)
  {
    x[p] := Plus(x[p], x[q]);
    x[r] := Rotl(Xor32(x[r], x[p]), n);
  }

  /** CHACHA20_QUARTERROUND(x, a, b, c, d) on the working array: the macro's
      eight updates, in four line pairs, each reading the words the earlier
      ones wrote, compute the quarter round of the four words and touch no
      other word. */
  method QuarterRoundInPlace(x: array<bv32>, a: nat, b: nat, c: nat, d: nat)
    requires x.Length == 16 && a < 16 && b < 16 && c < 16 && d < 16
    requires a != b && a != c && a != d && b != c && b != d && c != d
    modifies x
    ensures x[..] == QuarterRoundAt(old(x[..]), a, b, c, d)
  {
    QuarterRoundPairs(x[..], a, b, c, d);
    AddXorRotate(x, a, b, d, 16);
    AddXorRotate(x, c, d, b, 12);
    AddXorRotate(x, a, b, d, 8);
    AddXorRotate(x, c, d, b, 7);
  }

  /** The first four CHACHA20_QUARTERROUND invocations of the round loop, in place. */
  method ColumnRoundInPlace(x: array<bv32>)
    requires x.Length == 16
    modifies x
    ensures x[..] == ColumnRound(old(x[..]))
  {
    ghost var x0 := x[..];
    QuarterRoundInPlace(x, 0, 4, 8, 12);
    assert x[..] == QuarterRounds(x0, COLUMNS, 1);
    QuarterRoundInPlace(x, 1, 5, 9, 13);
    assert x[..] == QuarterRounds(x0, COLUMNS, 2);
    QuarterRoundInPlace(x, 2, 6, 10, 14);
    assert x[..] == QuarterRounds(x0, COLUMNS, 3);
    QuarterRoundInPlace(x, 3, 7, 11, 15);
  }

  /** The last four CHACHA20_QUARTERROUND invocations of the round loop, in place. */
  method DiagonalRoundInPlace(x: array<bv32>)
    requires x.Length == 16
    modifies x
    ensures x[..] == DiagonalRound(old(x[..]))
  {
    ghost var x0 := x[..];
    QuarterRoundInPlace(x, 0, 5, 10, 15);
    assert x[..] == QuarterRounds(x0, DIAGONALS, 1);
    QuarterRoundInPlace(x, 1, 6, 11, 12);
    assert x[..] == QuarterRounds(x0, DIAGONALS, 2);
    QuarterRoundInPlace(x, 2, 7, 8, 13);
    assert x[..] == QuarterRounds(x0, DIAGONALS, 3);
    QuarterRoundInPlace(x, 3, 4, 9, 14);
  }

  /** The add-back loop: `x[i] = PLUS(x[i], j[i])` for the 16 words. */
  method AddInto(x: array<bv32>, j: array<bv32>)
    requires j.Length == 16 && x.Length == 16 && j != x
    modifies x
    ensures x[..] == AddWords(old(x[..]), j[..])
  {
    for k := 0 to 16
      invariant forall t :: 0 <= t < k ==> x[t] == Plus(old(x[t]), j[t])
      invariant forall t :: k <= t < 16 ==> x[t] == old(x[t])
    {
      x[k] := Plus(x[k], j[k]);
    }
  }

  /** One block of _rs_chacha_encrypt: copy `j` into `x`, run the round loop
      (`for (i = 20; i > 0; i -= 2)`) and add `j` back. */
  method BlockInto(j: array<bv32>, x: array<bv32>)
    requires j.Length == 16 && x.Length == 16 && j != x
    modifies x
    ensures x[..] == Block(j[..])
  {
    forall k | 0 <= k < 16 {
      x[k] := j[k];
    }
    var i := 20;
    ghost var n := 0;
    while i > 0
      invariant 0 <= n <= DOUBLE_ROUNDS && i == 20 - 2 * n
      invariant x[..] == Rounds(j[..], n)
    {
      ColumnRoundInPlace(x);
      DiagonalRoundInPlace(x);
      i, n := i - 2, n + 1;
    }
    assert n == DOUBLE_ROUNDS;
    AddInto(x, j);
  }

  /** CHACHA20_U32TO8(c + pos, v): the word stored little-endian at `c[pos .. pos + 4]`. */
  method StoreU32(c: array<bv8>, pos: nat, v: bv32)
    requires pos + 4 <= c.Length
    modifies c
    ensures c[..] == old(c[..])[..pos] + U32To8(v) + old(c[..])[pos + 4 ..]
  {
    c[pos] := (v & 0xFF) as bv8;
    c[pos + 1] := ((v >> 8) & 0xFF) as bv8;
    c[pos + 2] := ((v >> 16) & 0xFF) as bv8;
    c[pos + 3] := ((v >> 24) & 0xFF) as bv8;
  }

  /** One step of the serialisation loop: storing word `i` after the first `i`
      serialised words extends the serialised prefix by one word. */
  lemma StoreWordsStep(c0: seq<bv8>, ws: seq<bv32>, off: nat, i: nat, c1: seq<bv8>)
    requires i < |ws| && off + 4 * |ws| <= |c0|
    requires c1 == (c0[..off] + WordsToBytes(ws[..i]) + c0[off + 4 * i ..])[..off + 4 * i]
                   + U32To8(ws[i])
                   + (c0[..off] + WordsToBytes(ws[..i]) + c0[off + 4 * i ..])[off + 4 * i + 4 ..]
    ensures c1 == c0[..off] + WordsToBytes(ws[..i + 1]) + c0[off + 4 * (i + 1) ..]
  {
    var pre, w, rest := c0[..off], WordsToBytes(ws[..i]), c0[off + 4 * i ..];
    assert (pre + w + rest)[..off + 4 * i] == pre + w;
    assert (pre + w + rest)[off + 4 * i + 4 ..] == rest[4..] == c0[off + 4 * (i + 1) ..];
    assert ws[..i + 1] == ws[..i] + [ws[i]];
    WordsToBytesAppend(ws[..i], [ws[i]]);
  }

  /** The serialisation loop: `CHACHA20_U32TO8(c + off + i * 4, x[i])` for the 16 words. */
  method StoreWords(x: array<bv32>, c: array<bv8>, off: nat)
    requires x.Length == 16 && off + BLOCK_SIZE <= c.Length
    modifies c
    ensures c[..] == old(c[..])[..off] + WordsToBytes(x[..]) + old(c[..])[off + BLOCK_SIZE ..]
  {
    ghost var c0, xs := c[..], x[..];
    for i := 0 to 16
      invariant c[..] == c0[..off] + WordsToBytes(xs[..i]) + c0[off + 4 * i ..]
    {
      StoreU32(c, off + 4 * i, x[i]);
      StoreWordsStep(c0, xs, off, i, c[..]);
    }
    assert xs[..16] == xs;
  }

  /** A ghost stand-in for KeystreamBlock: the block loop is proved for any
      block function that agrees with it, so that its proof does not unfold
      the twenty rounds. */
  ghost predicate ComputesKeystreamBlock(block: seq<bv32> --> seq<bv8>)
  {
    IsBlockFunction(block) &&
    forall s {:trigger KeystreamBlock(s)} :: |s| == 16 ==> block.requires(s) && block(s) == KeystreamBlock(s)
  }

  /** The body of the block loop of _rs_chacha_encrypt for one block: the
      block of `j` is computed in `x`, the counter words of `j` are stepped,
      and the block's 64 bytes are stored at `c[pos ..]`. */
  method NextBlock(ghost block: seq<bv32> --> seq<bv8>, j: array<bv32>, x: array<bv32>, c: array<bv8>, pos: nat)
    requires ComputesKeystreamBlock(block)
    requires j.Length == 16 && x.Length == 16 && j != x && pos + BLOCK_SIZE <= c.Length
    modifies j, x, c
    ensures c[..] == old(c[..])[..pos] + block(old(j[..])) + old(c[..])[pos + BLOCK_SIZE ..]
    ensures j[..] == IncrementCounter(old(j[..]))
  {
    ghost var jk := j[..];
    assert block(jk) == KeystreamBlock(jk);
    BlockInto(j, x);
    j[12] := j[12] + 1;
    if j[12] == 0 {
      j[13] := j[13] + 1;
    }
    assert j[..] == IncrementCounter(jk);
    StoreWords(x, c, pos);
  }

  /** One step of a byte-copy loop: writing `t[i]` at `c[off + i]` extends the copied prefix. */
  lemma CopyStep(c0: seq<bv8>, t: seq<bv8>, off: nat, i: nat, c1: seq<bv8>)
    requires i < |t| && off + i < |c0|
    requires c1 == (c0[..off] + t[..i] + c0[off + i ..])[off + i := t[i]]
    ensures c1 == c0[..off] + t[..i + 1] + c0[off + i + 1 ..]
  {
    assert t[..i + 1] == t[..i] + [t[i]];
  }

  /** The copy-back loop of a final partial block: `ctarget[i] = c[i]` for `i < n`. */
  method CopyPrefix(t: array<bv8>, c: array<bv8>, off: nat, n: nat)
    requires t != c && n <= t.Length && off + n <= c.Length
    modifies c
    ensures c[..] == old(c[..])[..off] + t[..n] + old(c[..])[off + n ..]
  {
    ghost var c0 := c[..];
    for i := 0 to n
      invariant c[..] == c0[..off] + t[..i] + c0[off + i ..]
    {
      c[off + i] := t[i];
      CopyStep(c0, t[..], off, i, c[..]);
    }
  }

  /** The last pass of the block loop when fewer than 64 bytes are left: the
      input bytes are copied into the scratch buffer (and then overwritten),
      the block goes to the scratch buffer, and its first `n` bytes are copied
      out to `c[off ..]`. */
  method PartialBlock(ghost block: seq<bv32> --> seq<bv8>, j: array<bv32>, x: array<bv32>, tmp: array<bv8>,
                      m: array<bv8>, c: array<bv8>, off: nat, n: nat)
    requires ComputesKeystreamBlock(block)
    requires j.Length == 16 && x.Length == 16 && j != x
    requires tmp.Length == BLOCK_SIZE && tmp != c && n < BLOCK_SIZE && n <= m.Length && off + n <= c.Length
    modifies j, x, tmp, c
    ensures c[..] == old(c[..])[..off] + block(old(j[..]))[..n] + old(c[..])[off + n ..]
    ensures j[..] == IncrementCounter(old(j[..]))
  {
    for i := 0 to n
      modifies tmp
    {
      tmp[i] := m[i];
    }
    assert j[..] == old(j[..]) && c[..] == old(c[..]);
    ghost var c0, t0, kb := c[..], tmp[..], block(j[..]);
    NextBlock(block, j, x, tmp, 0);
    assert tmp[..] == kb by {
      assert |kb| == BLOCK_SIZE && t0[..0] == [] && t0[BLOCK_SIZE..] == [];
      assert t0[..0] + kb + t0[BLOCK_SIZE..] == kb;
    }
    assert c[..] == c0;
    CopyPrefix(tmp, c, off, n);
  }

  /** Writing the next `n` stream bytes just past the `BLOCK_SIZE * k`
      written so far gives the first `BLOCK_SIZE * k + n`. */
  lemma CounterBytesStep(block: seq<bv32> --> seq<bv8>, j0: seq<bv32>, k: nat, n: nat, c0: seq<bv8>, c1: seq<bv8>, c2: seq<bv8>)
    requires IsBlockFunction(block) && |j0| == 16 && n <= BLOCK_SIZE && BLOCK_SIZE * k + n <= |c0|
    requires c1 == CounterBytes(block, j0, BLOCK_SIZE * k) + c0[BLOCK_SIZE * k ..]
    requires c2 == c1[..BLOCK_SIZE * k] + block(AdvanceCounter(j0, k))[..n] + c1[BLOCK_SIZE * k + n ..]
    ensures c2 == CounterBytes(block, j0, BLOCK_SIZE * k + n) + c0[BLOCK_SIZE * k + n ..]
  {
    var off, ks := BLOCK_SIZE * k, CounterBytes(block, j0, BLOCK_SIZE * k);
    CounterBytesSnoc(block, j0, k, n);
    assert c1[..off] == ks;
    assert c1[off + n ..] == c0[off + n ..];
  }

  /** CounterBytesStep for a whole block. */
  lemma CounterBytesFullStep(block: seq<bv32> --> seq<bv8>, j0: seq<bv32>, k: nat, c0: seq<bv8>, c1: seq<bv8>, c2: seq<bv8>)
    requires IsBlockFunction(block) && |j0| == 16 && BLOCK_SIZE * (k + 1) <= |c0|
    requires c1 == CounterBytes(block, j0, BLOCK_SIZE * k) + c0[BLOCK_SIZE * k ..]
    requires c2 == c1[..BLOCK_SIZE * k] + block(AdvanceCounter(j0, k)) + c1[BLOCK_SIZE * k + BLOCK_SIZE ..]
    ensures c2 == CounterBytes(block, j0, BLOCK_SIZE * (k + 1)) + c0[BLOCK_SIZE * (k + 1) ..]
  {
    var kb := block(AdvanceCounter(j0, k));
    assert kb[..BLOCK_SIZE] == kb;
    CounterBytesStep(block, j0, k, BLOCK_SIZE, c0, c1, c2);
  }

  /** A full pass of the block loop, in terms of the loop's next `k` and
      `off`: the written prefix grows by the block and the counter steps. */
  lemma FullBlockStep(block: seq<bv32> --> seq<bv8>, j0: seq<bv32>, k: nat, k': nat, off: nat, off': nat,
                      c0: seq<bv8>, c1: seq<bv8>, c2: seq<bv8>)
    requires IsBlockFunction(block) && |j0| == 16
    requires off == BLOCK_SIZE * k && k' == k + 1 && off' == off + BLOCK_SIZE <= |c0|
    requires c1 == CounterBytes(block, j0, off) + c0[off..]
    requires c2 == c1[..off] + block(AdvanceCounter(j0, k)) + c1[off + BLOCK_SIZE ..]
    ensures c2 == CounterBytes(block, j0, off') + c0[off'..]
    ensures AdvanceCounter(j0, k') == IncrementCounter(AdvanceCounter(j0, k))
  {
    CounterBytesFullStep(block, j0, k, c0, c1, c2);
    AdvanceCounterSucc(j0, k);
    assert BLOCK_SIZE * (k + 1) == off';
  }

  /** The last pass of the block loop, `n` bytes of block `k` at `off`,
      completes the `bytes` requested and the counter. */
  lemma LastBlockStep(block: seq<bv32> --> seq<bv8>, j0: seq<bv32>, k: nat, off: nat, n: nat, bytes: nat,
                      c0: seq<bv8>, c1: seq<bv8>, c2: seq<bv8>)
    requires IsBlockFunction(block) && |j0| == 16
    requires off == BLOCK_SIZE * k && 0 < n <= BLOCK_SIZE && bytes == off + n <= |c0|
    requires c1 == CounterBytes(block, j0, off) + c0[off..]
    requires c2 == c1[..off] + block(AdvanceCounter(j0, k))[..n] + c1[off + n ..]
    ensures c2 == CounterBytes(block, j0, bytes) + c0[bytes..]
    ensures AdvanceCounter(j0, Blocks(bytes)) == IncrementCounter(AdvanceCounter(j0, k))
  {
    CounterBytesStep(block, j0, k, n, c0, c1, c2);
    BlocksOfLast(k, n);
    AdvanceCounterSucc(j0, k);
  }

  /** LastBlockStep when the last pass is a whole block. */
  lemma LastFullBlockStep(block: seq<bv32> --> seq<bv8>, j0: seq<bv32>, k: nat, off: nat, bytes: nat,
                          c0: seq<bv8>, c1: seq<bv8>, c2: seq<bv8>)
    requires IsBlockFunction(block) && |j0| == 16
    requires off == BLOCK_SIZE * k && bytes == off + BLOCK_SIZE <= |c0|
    requires c1 == CounterBytes(block, j0, off) + c0[off..]
    requires c2 == c1[..off] + block(AdvanceCounter(j0, k)) + c1[off + BLOCK_SIZE ..]
    ensures c2 == CounterBytes(block, j0, bytes) + c0[bytes..]
    ensures AdvanceCounter(j0, Blocks(bytes)) == IncrementCounter(AdvanceCounter(j0, k))
  {
    var kb := block(AdvanceCounter(j0, k));
    assert kb[..BLOCK_SIZE] == kb;
    LastBlockStep(block, j0, k, off, BLOCK_SIZE, bytes, c0, c1, c2);
  }

  /** Storing the block counter back into words 12 and 13 of the start state
      gives the advanced state. */
  lemma AdvanceCounterWords(s: seq<bv32>, n: nat)
    requires |s| == 16
    ensures AdvanceCounter(s, n) == s[12 := AdvanceCounter(s, n)[12]][13 := AdvanceCounter(s, n)[13]]
  {
    AdvanceCounterValue(s, n);
  }

  /** The block loop of _rs_chacha_encrypt, run on the working copy `j` of
      the state: the first `bytes` stream bytes go to `c`, and `j` ends with
      its counter advanced by one per block produced. */
  method BlockLoop(ghost block: seq<bv32> --> seq<bv8>, j: array<bv32>, x: array<bv32>, tmp: array<bv8>,
                   m: array<bv8>, c: array<bv8>, bytes: nat)
    requires ComputesKeystreamBlock(block)
    requires j.Length == 16 && x.Length == 16 && j != x && tmp.Length == BLOCK_SIZE && tmp != c
    requires 0 < bytes <= m.Length && bytes <= c.Length
    modifies j, x, tmp, c
    ensures c[..] == CounterBytes(block, old(j[..]), bytes) + old(c[..])[bytes..]
    ensures j[..] == AdvanceCounter(old(j[..]), Blocks(bytes))
  {
    ghost var j0, c0 := j[..], c[..];
    ghost var k: nat := 0;
    var left: nat, off: nat := bytes, 0;
    while left > BLOCK_SIZE
      invariant off + left == bytes && off == BLOCK_SIZE * k && left > 0
      invariant j[..] == AdvanceCounter(j0, k)
      invariant c[..] == CounterBytes(block, j0, off) + c0[off..]
    {
      ghost var c1 := c[..];
      NextBlock(block, j, x, c, off);
      var left', off' := left - BLOCK_SIZE, off + BLOCK_SIZE;
      ghost var k' := k + 1;
      FullBlockStep(block, j0, k, k', off, off', c0, c1, c[..]);
      left, off, k := left', off', k';
    }
    ghost var c1 := c[..];
    if left < BLOCK_SIZE {
      PartialBlock(block, j, x, tmp, m, c, off, left);
      LastBlockStep(block, j0, k, off, left, bytes, c0, c1, c[..]);
    } else {
      NextBlock(block, j, x, c, off);
      LastFullBlockStep(block, j0, k, off, bytes, c0, c1, c[..]);
    }
  }

  /** Any block function that agrees with KeystreamBlock gives the ChaCha20 keystream. */
  lemma {:induction false} CounterStreamIsKeystream(block: seq<bv32> --> seq<bv8>, j: seq<bv32>, n: nat)
    requires ComputesKeystreamBlock(block) && |j| == 16
    ensures CounterStream(block, j, n) == Keystream(j, n)
    decreases n
  {
    if n > 0 {
      assert block(j) == KeystreamBlock(j);
      CounterStreamIsKeystream(block, IncrementCounter(j), n - 1);
    }
  }

  /** The first `bytes` bytes likewise. */
  lemma CounterBytesIsKeystream(block: seq<bv32> --> seq<bv8>, j: seq<bv32>, bytes: nat)
    requires ComputesKeystreamBlock(block) && |j| == 16
    ensures CounterBytes(block, j, bytes) == KeystreamBytes(j, bytes)
  {
    CounterStreamIsKeystream(block, j, Blocks(bytes));
  }

  /**
   * _rs_chacha_encrypt(ctx, m, c, bytes): writes the first `bytes` keystream
   * bytes of the context's state into `c` and advances the state's block
   * counter by ceil(bytes / 64). A final partial block is produced in a 64-byte
   * scratch buffer, so nothing past `c[bytes - 1]` is written. The input `m` is
   * copied into the scratch buffer and then overwritten: the output does not
   * depend on it (`m` and `c` may be the same buffer).
   *
   * The keystream is stated with the ghost stand-in `block` for KeystreamBlock
   * (by CounterBytesIsKeystream it is KeystreamBytes), so that callers reason
   * about the buffer without unfolding the rounds.
   */
  method Encrypt(ghost block: seq<bv32> --> seq<bv8>, ctx: array<bv32>, m: array<bv8>, c: array<bv8>, bytes: nat)
    requires ComputesKeystreamBlock(block)
    requires ctx.Length == 16 && bytes <= m.Length && bytes <= c.Length
    modifies ctx, c
    ensures c[..] == CounterBytes(block, old(ctx[..]), bytes) + old(c[..])[bytes..]
    ensures ctx[..] == AdvanceCounter(old(ctx[..]), Blocks(bytes))
  {
    ghost var j0 := ctx[..];
    if bytes == 0 {
      assert CounterBytes(block, j0, 0) == [];
      return;
    }
    var j := new bv32[16];
    var x := new bv32[16];
    var tmp := new bv8[BLOCK_SIZE];
    forall i | 0 <= i < 16 {
      j[i] := ctx[i];
    }
    assert j[..] == j0 && c[..] == old(c[..]);
    BlockLoop(block, j, x, tmp, m, c, bytes);
    assert ctx[..] == j0;
    ctx[12] := j[12];
    ctx[13] := j[13];
    assert ctx[..] == j0[12 := j[12]][13 := j[13]];
    AdvanceCounterWords(j0, Blocks(bytes));
  }
}
