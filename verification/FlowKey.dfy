/** Flow keys as pcp_client_db lays them out and hashes them. */
module FlowKey {
  import opened Base

  const OP_ANNOUNCE: Byte := 0
  const OP_MAP: Byte := 1
  const OP_PEER: Byte := 2

  /** struct flow_key_data; ports and addresses are in network order. */
  datatype Key = Key(op: Byte, srcIp: Ip, serverIp: Ip, scope: U32, nonce: Nonce,
                     proto: Byte, srcPort: U16, dstIp: Ip, dstPort: U16)

  const KEY_SIZE: nat := 76

  /** The 76 bytes that memcmp compares and the hash reads; padding is zero, as the creators clear it. */
  function KeyBytes(k: Key): (b: seq<Byte>)
    ensures |b| == KEY_SIZE
  {
    [k.op, 0, 0, 0] + k.srcIp + k.serverIp + Le32(k.scope) + k.nonce +
    [k.proto, 0] + Be16(k.srcPort) + k.dstIp + Be16(k.dstPort) + [0, 0]
  }

  /** Where each field lies. */
  lemma KeyFields(k: Key)
    ensures var b := KeyBytes(k);
      b[0] == k.op && b[4..20] == k.srcIp && b[20..36] == k.serverIp && b[36..40] == Le32(k.scope) &&
      b[40..52] == k.nonce && b[52] == k.proto && b[54..56] == Be16(k.srcPort) && b[56..72] == k.dstIp &&
      b[72..74] == Be16(k.dstPort)
  {
    hide Le32, Be16;
  }

  /** Comparing bytes compares keys: no two keys share a layout. */
  lemma KeyBytesInjective(k: Key, l: Key)
    requires KeyBytes(k) == KeyBytes(l)
    ensures k == l
  {
    hide KeyBytes, Le32, Be16;
    KeyFields(k);
    KeyFields(l);
    Le32Injective(k.scope, l.scope);
    Be16RoundTrip(k.srcPort);
    Be16RoundTrip(l.srcPort);
    Be16RoundTrip(k.dstPort);
    Be16RoundTrip(l.dstPort);
  }

  // ----------------------------------------------------------------- hash

  const FLOW_HASH_SIZE: nat := 64

  /** A byte widened to the hash's word. */
  function Widen(b: Byte): (x: bv32)
    ensures x < 256
  {
    b as bv32
  }

  /** One round of the hash loop. */
  function Mix(h: bv32, b: bv32): bv32 {
    ((h << 8) ^ ((h & 0xff00_0000) >> 24)) ^ b
  }

  /** The loop state after the bytes from the last down to index k were mixed in. */
  function MixDown(b: seq<Byte>, k: nat): (h: bv32)
    requires k <= |b|
    decreases |b| - k
  {
    if k == |b| then 0 else Mix(MixDown(b, k + 1), Widen(b[k]))
  }

  /** Multiplicative hashing to FLOW_HASH_BITS bits. */
  function FoldBits(h: bv32): (x: bv32)
    ensures x < 32
  {
    (h * 0x9E37_79B9) >> 27
  }

  function Fold(h: bv32): (i: nat)
    ensures i < 32
  {
    FoldBits(h) as nat
  }

  function BucketOf(b: seq<Byte>): (i: nat)
    ensures i < 32 < FLOW_HASH_SIZE
  {
    Fold(MixDown(b, 0))
  }

  function Bucket(k: Key): (i: nat)
    ensures i < FLOW_HASH_SIZE
  {
    BucketOf(KeyBytes(k))
  }

  /** compute_flow_key over the bytes of a key. */
  method ComputeFlowKey(b: array<Byte>) returns (bucket: nat)
    ensures bucket == BucketOf(b[..]) && bucket < FLOW_HASH_SIZE
  {
    hide Widen, Fold;
    var h: bv32 := 0;
    var k: nat := b.Length;
    while k != 0
      invariant k <= b.Length && h == MixDown(b[..], k)
    {
      k := k - 1;
      h := MixRound(h, Widen(b[k]));
    }
    bucket := Fold(h);
  }

  /** The loop body of compute_flow_key. */
  method MixRound(h: bv32, b: bv32) returns (r: bv32)
    ensures r == Mix(h, b)
  {
    var ho := h & 0xff00_0000;
    r := h << 8;
    r := r ^ (ho >> 24);
    r := r ^ b;
  }

  /** Four bytes as a little-endian word. */
  function Word(b0: bv32, b1: bv32, b2: bv32, b3: bv32): bv32 {
    b0 | (b1 << 8) | (b2 << 16) | (b3 << 24)
  }

  function XorWords(b: seq<Byte>, k: nat): bv32
    requires k <= |b| && (|b| - k) % 4 == 0
    decreases |b| - k
  {
    if k == |b| then 0
    else XorWords(b, k + 4) ^ Word(Widen(b[k]), Widen(b[k + 1]), Widen(b[k + 2]), Widen(b[k + 3]))
  }

  /** Mixing four bytes turns the state once around and xors in one word. */
  lemma MixFour(h: bv32, b0: bv32, b1: bv32, b2: bv32, b3: bv32)
    requires b0 < 256 && b1 < 256 && b2 < 256 && b3 < 256
    ensures Mix(Mix(Mix(Mix(h, b3), b2), b1), b0) == h ^ Word(b0, b1, b2, b3)
  {
  }

  lemma MixDownFour(b: seq<Byte>, k: nat)
    requires k + 4 <= |b|
    ensures MixDown(b, k) ==
      Mix(Mix(Mix(Mix(MixDown(b, k + 4), Widen(b[k + 3])), Widen(b[k + 2])), Widen(b[k + 1])), Widen(b[k]))
  {
    hide Mix, Widen;
    assert MixDown(b, k + 2) == Mix(MixDown(b, k + 3), Widen(b[k + 2]));
  }

  /** The byte loop computes the xor of the key's 32-bit words. */
  lemma {:induction false} HashIsXorOfWords(b: seq<Byte>, k: nat)
    requires k <= |b| && (|b| - k) % 4 == 0
    ensures MixDown(b, k) == XorWords(b, k)
    decreases |b| - k
  {
    hide Mix, Widen, Word;
    if k < |b| {
      HashIsXorOfWords(b, k + 4);
      MixDownFour(b, k);
      MixFour(MixDown(b, k + 4), Widen(b[k]), Widen(b[k + 1]), Widen(b[k + 2]), Widen(b[k + 3]));
    }
  }

  // ---------------------------------------------------- changing a nonce

  lemma Distribute(h: bv32)
    ensures (h + 1) * 0x9E37_79B9 == h * 0x9E37_79B9 + 0x9E37_79B9
  {
  }

  lemma ShiftMoves(y: bv32)
    ensures (y + 0x9E37_79B9) >> 27 != y >> 27
  {
  }

  /** Neighbouring sums never share a bucket: the multiplier alone moves the five bits on by 19. */
  lemma FoldNext(h: bv32)
    ensures FoldBits(h + 1) != FoldBits(h)
  {
    Distribute(h);
    ShiftMoves(h * 0x9E37_79B9);
  }

  lemma OddEven(h: bv32)
    ensures h ^ 1 == h + 1 || h ^ 1 == h - 1
  {
  }

  lemma FoldBitsFlip(h: bv32)
    ensures FoldBits(h ^ 1) != FoldBits(h)
  {
    hide FoldBits;
    OddEven(h);
    FoldNext(h);
    FoldNext(h - 1);
  }

  /** Flipping the lowest bit of the xor always changes the bucket. */
  lemma FoldFlip(h: bv32)
    ensures Fold(h ^ 1) != Fold(h)
  {
    hide FoldBits;
    FoldBitsFlip(h);
  }

  /** Two keys that differ in one nonce byte, 0 against 1. */
  lemma {:induction false} XorWordsFlip(b: seq<Byte>, at: nat, k: nat)
    requires k <= |b| && (|b| - k) % 4 == 0 && at < |b| && (|b| - at) % 4 == 0
    ensures XorWords(b[at := 1], k) == if k <= at then XorWords(b[at := 0], k) ^ 1 else XorWords(b[at := 0], k)
    decreases |b| - k
  {
    hide Widen, Word;
    if k < |b| {
      XorWordsFlip(b, at, k + 4);
      if k == at {
        WordFlip(Widen(b[k + 1]), Widen(b[k + 2]), Widen(b[k + 3]), XorWords(b[at := 0], k + 4));
      } else if k < at {
        assert k + 3 < at;
        XorSwap(XorWords(b[at := 0], k + 4), Word(Widen(b[k]), Widen(b[k + 1]), Widen(b[k + 2]), Widen(b[k + 3])));
      }
    }
  }

  lemma XorSwap(h: bv32, x: bv32)
    ensures (h ^ 1) ^ x == (h ^ x) ^ 1
  {
  }

  lemma WordFlip(b1: bv32, b2: bv32, b3: bv32, h: bv32)
    ensures h ^ Word(Widen(1), b1, b2, b3) == (h ^ Word(Widen(0), b1, b2, b3)) ^ 1
  {
  }

  /** The two overrides of a nonce's first byte by 0 and by 1 never give the same bucket. */
  lemma NonceMovesBucket(k: Key)
    ensures Bucket(k.(nonce := k.nonce[0 := 0])) != Bucket(k.(nonce := k.nonce[0 := 1]))
  {
    hide Fold, XorWords, MixDown, Be16, Le32;
    var b := KeyBytes(k);
    assert KeyBytes(k.(nonce := k.nonce[0 := 0])) == b[40 := 0];
    assert KeyBytes(k.(nonce := k.nonce[0 := 1])) == b[40 := 1];
    HashIsXorOfWords(b[40 := 0], 0);
    HashIsXorOfWords(b[40 := 1], 0);
    XorWordsFlip(b, 40, 0);
    FoldFlip(XorWords(b[40 := 0], 0));
  }
}
