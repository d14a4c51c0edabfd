/**
 * The generator of libathemecore/arc4random.c as an object: the globals rs
 * (the ChaCha20 state), rs_buf, rs_count, rs_have, rs_initialized and
 * rs_stir_pid become the fields of one Arc4Random, updated in place by the
 * methods below, each proved against its function in module Policy.
 *
 * getpid() is the parameter `pid`; the 40 seed bytes that the entropy source
 * would supply are the parameter `seed` (Policy.SHIM_SEED is what the code as
 * written passes). Every method keeps Valid(), so the buffer bytes already
 * handed out are always zero.
 */
module Generator {
  import opened Wrappers
  import opened Codec
  import opened ChaCha
  import opened Sampling
  import opened Policy

  class Arc4Random {
    const rs: array<bv32>    // the cipher state
    const buf: array<bv8>    // rs_buf
    var count: nat           // rs_count: bytes left before the next reseed
    var have: nat            // rs_have: unread bytes at the end of rs_buf
    var initialized: bool    // rs_initialized
    var stirPid: int         // rs_stir_pid
    /** The block function the generator runs: ChaCha20's (see the constructor). */
    ghost const block: seq<bv32> --> seq<bv8>

    /** The globals as a value. */
    ghost function View(): GenState
      reads this, rs, buf
    {
      GenState(rs[..], buf[..], count, have, initialized, stirPid)
    }

    ghost predicate Valid()
      reads this, rs, buf
    {
      rs.Length == 16 && buf.Length == STATE_SIZE && ComputesKeystreamBlock(block) && Inv(View())
    }

    /** The globals at program start: all zero, rs_stir_pid -1. */
    constructor ()
      ensures Valid() && View() == Initial() && block == KeystreamBlock
    {
      rs := new bv32[16](_ => 0);
      buf := new bv8[STATE_SIZE](_ => 0);
      count, have, initialized, stirPid := 0, 0, false, NO_PID;
      block := KeystreamBlock;
      new;
      assert rs[..] == seq(16, _ => 0);
      assert buf[..] == Zeros(STATE_SIZE);
    }

    /** _rs_init: key setup from the first 32 seed bytes, nonce setup from the
        next 8. */
    method Init(seed: seq<bv8>)
      requires rs.Length == 16 && |seed| == SEED_SIZE
      modifies rs
      ensures rs[..] == InitSpec(seed)
    {
      ghost var rs0 := rs[..];
      KeySetup(rs, seed[..KEY_SIZE]);
      IvSetup(rs, seed[KEY_SIZE..]);
      InitSpecIsSetup(rs0, seed);
    }

    /** memset(rs_buf + pos, 0x00, n). */
    method Wipe(pos: nat, n: nat)
      requires pos + n <= buf.Length
      modifies buf
      ensures buf[..] == old(buf[..])[..pos] + Zeros(n) + old(buf[..])[pos + n ..]
    {
      ghost var b0, z := buf[..], Zeros(n);
      for i := 0 to n
        invariant buf[..] == b0[..pos] + z[..i] + b0[pos + i ..]
      {
        buf[pos + i] := 0;
        CopyStep(b0, z, pos, i, buf[..]);
      }
      assert z[..n] == z;
    }

    /** The XOR loop of _rs_rekey: `rs_buf[i] ^= buf[i]` for the first 40
        bytes, while the extra seed pointer is not NULL. */
    method MixIn(extra: Option<seq<bv8>>)
      requires buf.Length == STATE_SIZE && (extra.Some? ==> |extra.value| == SEED_SIZE)
      modifies buf
      ensures extra.None? ==> buf[..] == old(buf[..])
      ensures extra.Some? ==>
        buf[..] == XorBytes(old(buf[..])[..SEED_SIZE], extra.value) + old(buf[..])[SEED_SIZE..]
    {
      var i := 0;
      while extra.Some? && i < SEED_SIZE
        invariant i <= SEED_SIZE && (extra.None? ==> i == 0)
        invariant forall k :: 0 <= k < i ==> buf[k] == Xor(old(buf[k]), extra.value[k])
        invariant forall k :: i <= k < STATE_SIZE ==> buf[k] == old(buf[k])
      {
        buf[i] := Xor(buf[i], extra.value[i]);
        i := i + 1;
      }
      if extra.Some? {
        assert buf[..] == XorBytes(old(buf[..])[..SEED_SIZE], extra.value) + old(buf[..])[SEED_SIZE..];
      } else {
        assert buf[..] == old(buf[..]);
      }
    }

    /** _rs_rekey: keystream over the whole buffer, the optional seed XORed
        into its first 40 bytes, the cipher re-keyed from them, those bytes
        wiped, 984 bytes left to hand out. */
    method Rekey(extra: Option<seq<bv8>>)
      requires Valid() && (extra.Some? ==> |extra.value| == SEED_SIZE)
      modifies this, rs, buf
      ensures Valid() && View() == RekeySpec(block, old(View()), extra)
    {
      ghost var st := View();
      Encrypt(block, rs, buf, buf, STATE_SIZE);
      assert buf[..] == RekeyStream(block, st);
      MixIn(extra);
      assert buf[..SEED_SIZE] == RekeyMaterial(block, st, extra);
      Init(buf[..SEED_SIZE]);
      Wipe(0, SEED_SIZE);
      have := STATE_SIZE - SEED_SIZE;
      RekeyProperties(block, st, extra);
      assert buf[..] == Zeros(SEED_SIZE) + RekeyStream(block, st)[SEED_SIZE..];
    }

    /** _rs_stir_if_needed: reseed when the allowance would run out, on the
        first call, or in a new process (`pid`); otherwise charge `len` bytes. */
    method StirIfNeeded(len: nat, pid: int, seed: seq<bv8>)
      requires Valid() && |seed| == SEED_SIZE
      modifies this, rs, buf
      ensures Valid() && View() == StirSpec(block, old(View()), len, pid, seed)
    {
      ghost var st := View();
      StirProperties(block, st, len, pid, seed);
      if count <= len || !initialized || stirPid != pid {
        var tmp := seed;
        if !initialized {
          Init(tmp);
          initialized := true;
        } else {
          Rekey(Some(tmp));
        }
        Wipe(0, STATE_SIZE);
        stirPid := pid;
        count := RESEED_COUNT;
        have := 0;
        assert buf[..] == Zeros(STATE_SIZE);
      } else {
        count := count - len;
      }
    }

    /** _rs_random_u32, which atheme_arc4random returns: stir for 4 bytes,
        rekey if fewer than 4 remain, then read the next 4 bytes of the buffer
        as a word (little-endian, as memcpy does on such a host) and wipe them. */
    method RandomU32(pid: int, seed: seq<bv8>) returns (v: bv32)
      requires Valid() && |seed| == SEED_SIZE
      modifies this, rs, buf
      ensures Valid() && (v, View()) == RandomU32Spec(block, old(View()), pid, seed)
    {
      StirIfNeeded(4, pid, seed);
      if have < 4 {
        Rekey(None);
      }
      assert View() == Refill(block, old(View()), pid, seed);
      v := ReadWord();
    }

    /** The read of _rs_random_u32 once 4 bytes are there: memcpy the 4 bytes
        at rs_buf + 1024 - rs_have into a word, wipe them, rs_have -= 4. */
    method ReadWord() returns (v: bv32)
      requires Valid() && 4 <= have
      modifies this, buf
      ensures Valid() && v == U8To32(Take(old(View()), 4).0) && View() == Take(old(View()), 4).1
    {
      ghost var s := View();
      TakeProperties(s, 4);
      var pos := STATE_SIZE - have;
      v := U8To32(buf[pos .. pos + 4]);
      Wipe(pos, 4);
      have := have - 4;
      assert View() == Take(s, 4).1;
    }

    /** memcpy(out + off, rs_buf + pos, n). */
    method CopyOut(out: array<bv8>, off: nat, pos: nat, n: nat)
      requires out != buf && off + n <= out.Length && pos + n <= buf.Length
      modifies out
      ensures out[..] == old(out[..])[..off] + buf[pos .. pos + n] + old(out[..])[off + n ..]
    {
      ghost var o0, t := out[..], buf[pos .. pos + n];
      for i := 0 to n
        invariant out[..] == o0[..off] + t[..i] + o0[off + i ..]
      {
        out[off + i] := buf[pos + i];
        CopyStep(o0, t, off, i, out[..]);
      }
      assert t[..n] == t;
    }

    /** atheme_arc4random_buf(out, len): stir for `len` bytes, then copy out
        what the buffer holds, wiping it behind, and rekey whenever it is
        empty, until `len` bytes are written. Nothing past out[len - 1] is
        written. */
    method RandomBuf(out: array<bv8>, len: nat, pid: int, seed: seq<bv8>)
      requires Valid() && |seed| == SEED_SIZE && out != buf && len <= out.Length
      modifies this, rs, buf, out
      ensures Valid()
      ensures (out[..len], View()) == BufSpec(block, old(View()), len, pid, seed)
      ensures out[len..] == old(out[len..])
    {
      StirIfNeeded(len, pid, seed);
      Fill(out, len);
    }

    /** The `while (len)` loop of atheme_arc4random_buf. */
    method Fill(out: array<bv8>, len: nat)
      requires Valid() && out != buf && len <= out.Length
      modifies this, rs, buf, out
      ensures Valid()
      ensures (out[..len], View()) == FillLoop(block, old(View()), len)
      ensures out[len..] == old(out[len..])
    {
      ghost var cur, orig := View(), out[..];
      ghost var target := FillLoop(block, cur, len);
      var off: nat, left: nat := 0, len;
      while left > 0
        invariant Valid() && cur == View() && off + left == len
        invariant out[..off] + FillLoop(block, cur, left).0 == target.0
        invariant FillLoop(block, cur, left).1 == target.1
        invariant out[..] == out[..off] + orig[off..]
        decreases left, if have == 0 then 1 else 0
      {
        ghost var st, out0 := cur, out[..];
        var n := FillPass(out, off, left);
        cur := View();
        var off', left' := off + n, left - n;
        FillInvariantStep(block, st, cur, out0, out[..], orig, off, off', left, left', target);
        off, left := off', left';
      }
      FillLoopProperties(block, cur, left);
      assert FillLoop(block, cur, left) == ([], cur);
      assert out[..off] == target.0;
      assert off == len;
      assert out[..len] == target.0;
      assert target.1 == View();
      assert target == FillLoop(block, old(View()), len);
      assert out[len..] == orig[len..];
    }

    /** One pass of the `while (len)` loop of atheme_arc4random_buf: copy
        MIN(len, rs_have) bytes to `out + off` and wipe them in the buffer,
        then rekey if the buffer is empty. Returns the number of bytes copied. */
    method FillPass(out: array<bv8>, off: nat, left: nat) returns (n: nat)
      requires Valid() && out != buf && 0 < left && off + left <= out.Length
      modifies this, rs, buf, out
      ensures Valid() && View() == FillStep(block, old(View()), left).1
      ensures n == |FillStep(block, old(View()), left).0| == Min(left, old(have))
      ensures out[..] == old(out[..])[..off] + FillStep(block, old(View()), left).0 + old(out[..])[off + n ..]
      ensures have > 0
    {
      ghost var st := View();
      FillStepProperties(block, st, left);
      n := 0;
      if have > 0 {
        n := if left < have then left else have;
        TakeOut(out, off, n);
      }
      if have == 0 {
        Rekey(None);
      }
    }

    /** memcpy(out + off, rs_buf + pos, n) and memset(rs_buf + pos, 0x00, n)
        with pos = 1024 - rs_have, then rs_have -= n. */
    method TakeOut(out: array<bv8>, off: nat, n: nat)
      requires Valid() && out != buf && n <= have && off + n <= out.Length
      modifies this, buf, out
      ensures Valid() && View() == Take(old(View()), n).1
      ensures out[..] == old(out[..])[..off] + Take(old(View()), n).0 + old(out[..])[off + n ..]
    {
      ghost var st := View();
      TakeProperties(st, n);
      var pos := STATE_SIZE - have;
      CopyOut(out, off, pos, n);
      Wipe(pos, n);
      have := have - n;
      assert View() == Take(st, n).1;
    }

    /** atheme_arc4random_uniform(bound): 0 for a bound below 2; otherwise draw
        words until one is at least `min = -bound % bound` and return it modulo
        `bound`. The C loop runs until it accepts; here it gives up with None
        after `fuel` draws. */
    method Uniform(bound: nat, pid: int, seed: seq<bv8>, fuel: nat) returns (r: Option<nat>)
      requires Valid() && |seed| == SEED_SIZE && bound < WORD
      modifies this, rs, buf
      ensures Valid() && (r, View()) == UniformSpec(block, old(View()), bound, pid, seed, fuel)
    {
      if bound < 2 {
        return Some(0);
      }
      var min := NegU32(bound) % bound;
      ghost var cur := View();
      ghost var target := UniformLoop(block, cur, bound, pid, seed, fuel);
      var tries: nat := fuel;
      while tries > 0
        invariant Valid()
        invariant cur == View()
        invariant UniformLoop(block, cur, bound, pid, seed, tries) == target
      {
        ghost var st := cur;
        var candidate := RandomU32(pid, seed);
        cur := View();
        if candidate as int >= min {
          UniformLoopAccept(block, st, cur, candidate, bound, pid, seed, tries);
          return Some(candidate as int % bound);
        }
        assert Accept(candidate, bound).None?;
        var next: nat := tries - 1;
        UniformLoopReject(block, st, cur, candidate, bound, pid, seed, next);
        tries := next;
      }
      return None;
    }
  }
  /** One pass of Arc4Random.Fill keeps its loop invariant: the bytes of
      the pass land at `off`, so the written prefix grows by them, the tail is
      still the original, and the rest of the loop starts from the new state. */
  lemma FillInvariantStep(block: seq<bv32> --> seq<bv8>, st: GenState, s1: GenState,
                          out0: seq<bv8>, out1: seq<bv8>, orig: seq<bv8>,
                          off: nat, off': nat, left: nat, left': nat, target: (seq<bv8>, GenState))
    requires IsBlockFunction(block) && Inv(st) && left > 0 && s1 == FillStep(block, st, left).1
    requires off' == off + |FillStep(block, st, left).0| && left' == left - |FillStep(block, st, left).0|
    requires off' <= |out0| == |orig| && out0 == out0[..off] + orig[off..]
    requires out1 == out0[..off] + FillStep(block, st, left).0 + out0[off'..]
    requires out0[..off] + FillLoop(block, st, left).0 == target.0 && FillLoop(block, st, left).1 == target.1
    ensures Inv(s1)
    ensures out1[..off'] + FillLoop(block, s1, left').0 == target.0 && FillLoop(block, s1, left').1 == target.1
    ensures out1 == out1[..off'] + orig[off'..]
  {
    var chunk := FillStep(block, st, left).0;
    var rest := FillLoop(block, s1, left');
    FillLoopStep(block, st, left, left');
    assert FillLoop(block, st, left) == (chunk + rest.0, rest.1);
    Splice(out0, out1, orig, off, off', chunk, rest.0);
  }

  /** The sequence bookkeeping of FillInvariantStep: `chunk` lands at `off`,
      so the written prefix grows by it and the tail is still the original. */
  lemma Splice(out0: seq<bv8>, out1: seq<bv8>, orig: seq<bv8>, off: nat, off': nat, chunk: seq<bv8>, rest: seq<bv8>)
    requires off' == off + |chunk| <= |out0| == |orig|
    requires out0 == out0[..off] + orig[off..]
    requires out1 == out0[..off] + chunk + out0[off'..]
    ensures out1[..off'] + rest == out0[..off] + (chunk + rest)
    ensures out1 == out1[..off'] + orig[off'..]
  {
    assert out1[..off'] == out0[..off] + chunk;
    assert out0[off'..] == orig[off'..];
  }
}
