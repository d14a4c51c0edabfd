/**
 * Little-endian conversion between bytes and 32-bit words
 * (the CHACHA20_U8TO32 and CHACHA20_U32TO8 macros of libathemecore/arc4random.c).
 */
module Codec {

  /** CHACHA20_U32TO8: the four bytes of `v`, least significant first,
      each taken as `(uint8_t) (v >> shift) & 0xFF`. */
  function U32To8(v: bv32): (p: seq<bv8>)
    ensures |p| == 4
  {
    [(v & 0xFF) as bv8, ((v >> 8) & 0xFF) as bv8, ((v >> 16) & 0xFF) as bv8, ((v >> 24) & 0xFF) as bv8]
  }

  /** CHACHA20_U8TO32: the word whose little-endian bytes are `p`. */
  function U8To32(p: seq<bv8>): bv32
    requires |p| == 4
  {
    (p[0] as bv32) | (p[1] as bv32 << 8) | (p[2] as bv32 << 16) | (p[3] as bv32 << 24)
  }

  /** Decoding an encoded word gives the word back. */
  lemma DecodeEncode(v: bv32)
    ensures U8To32(U32To8(v)) == v
  {
  }

  /** Encoding a decoded word gives the four bytes back. */
  lemma EncodeDecode(p: seq<bv8>)
    requires |p| == 4
    ensures U32To8(U8To32(p)) == p
  {
  }

  /** A run of words serialised one after another, each little-endian. */
  function WordsToBytes(ws: seq<bv32>): (r: seq<bv8>)
    ensures |r| == 4 * |ws|
  {
    if ws == [] then [] else U32To8(ws[0]) + WordsToBytes(ws[1..])
  }

  /** A byte string read as consecutive little-endian words. */
  function BytesToWords(bs: seq<bv8>): (r: seq<bv32>)
    requires |bs| % 4 == 0
    ensures |r| == |bs| / 4
  {
    seq(|bs| / 4, i requires 0 <= i < |bs| / 4 => U8To32(bs[4 * i .. 4 * i + 4]))
  }

  /** Serialisation distributes over concatenation. */
  lemma {:induction false} WordsToBytesAppend(a: seq<bv32>, b: seq<bv32>)
    ensures WordsToBytes(a + b) == WordsToBytes(a) + WordsToBytes(b)
  {
    if a != [] {
      calc {
        WordsToBytes(a + b);
        { assert (a + b)[1..] == a[1..] + b; }
        U32To8(a[0]) + WordsToBytes(a[1..] + b);
        { WordsToBytesAppend(a[1..], b); }
        U32To8(a[0]) + WordsToBytes(a[1..]) + WordsToBytes(b);
      }
    } else {
      assert a + b == b;
    }
  }

  /** Word `i` of the sequence occupies bytes `4*i .. 4*i+4` of its serialisation. */
  lemma {:induction false} WordsToBytesAt(ws: seq<bv32>, i: nat)
    requires i < |ws|
    ensures WordsToBytes(ws)[4 * i .. 4 * i + 4] == U32To8(ws[i])
  {
    if i > 0 {
      WordsToBytesAt(ws[1..], i - 1);
    }
  }

  /** Reading back serialised words gives the words. */
  lemma BytesToWordsOfWordsToBytes(ws: seq<bv32>)
    ensures BytesToWords(WordsToBytes(ws)) == ws
  {
    var r := BytesToWords(WordsToBytes(ws));
    forall i | 0 <= i < |ws|
      ensures r[i] == ws[i]
    {
      WordsToBytesAt(ws, i);
      DecodeEncode(ws[i]);
    }
  }

  /** Serialising decoded words gives the bytes back. */
  lemma {:induction false} WordsToBytesOfBytesToWords(bs: seq<bv8>)
    requires |bs| % 4 == 0
    ensures WordsToBytes(BytesToWords(bs)) == bs
    decreases |bs|
  {
    if bs != [] {
      var ws := BytesToWords(bs);
      assert ws[0] == U8To32(bs[..4]);
      assert ws[1..] == BytesToWords(bs[4..]) by {
        forall i | 0 <= i < |ws| - 1
          ensures ws[1..][i] == BytesToWords(bs[4..])[i]
        {
          assert bs[4..][4 * i .. 4 * i + 4] == bs[4 * (i + 1) .. 4 * (i + 1) + 4];
        }
      }
      EncodeDecode(bs[..4]);
      WordsToBytesOfBytesToWords(bs[4..]);
      assert bs == bs[..4] + bs[4..];
    }
  }
}
