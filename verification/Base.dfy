/** Shared value types: options, bytes, addresses and network-order integers. */
module Base {

  datatype Option<+T> = None | Some(value: T)

  type Byte = b: int | 0 <= b < 256
  type U16 = n: int | 0 <= n < 0x1_0000
  type U32 = n: int | 0 <= n < 0x1_0000_0000

  const TWO32: int := 0x1_0000_0000

  function Zeros(n: nat): (z: seq<Byte>)
    ensures |z| == n && forall i :: 0 <= i < n ==> z[i] == 0
  {
    seq(n, i => 0)
  }

  /** An in6_addr; IPv4 addresses are carried IPv4-mapped. */
  type Ip = s: seq<Byte> | |s| == 16 witness Zeros(16)

  /** The 96-bit mapping nonce. */
  type Nonce = s: seq<Byte> | |s| == 12 witness Zeros(12)

  /** The four bytes of an IPv4 address. */
  type V4 = s: seq<Byte> | |s| == 4 witness Zeros(4)

  function Min(a: int, b: int): int { if a < b then a else b }

  function Max(a: int, b: int): int { if a > b then a else b }

  /** htons: two bytes, most significant first. */
  function Be16(n: U16): (s: seq<Byte>)
    ensures |s| == 2
  {
    [n / 256, n % 256]
  }

  /** htonl: four bytes, most significant first. */
  function Be32(n: U32): (s: seq<Byte>)
    ensures |s| == 4
  {
    [n / 0x100_0000, (n / 0x1_0000) % 256, (n / 256) % 256, n % 256]
  }

  /** A host-order 32-bit field as it lies in memory on a little-endian host. */
  function Le32(n: U32): (s: seq<Byte>)
    ensures |s| == 4
  {
    [n % 256, (n / 256) % 256, (n / 0x1_0000) % 256, n / 0x100_0000]
  }

  function FromBe16(s: seq<Byte>): (n: U16)
    requires |s| == 2
  {
    s[0] as int * 256 + s[1]
  }

  function FromBe32(s: seq<Byte>): (n: U32)
    requires |s| == 4
  {
    s[0] as int * 0x100_0000 + s[1] as int * 0x1_0000 + s[2] as int * 256 + s[3]
  }

  lemma Be16RoundTrip(n: U16)
    ensures FromBe16(Be16(n)) == n
  {
  }

  lemma Be32RoundTrip(n: U32)
    ensures FromBe32(Be32(n)) == n
  {
    assert n / 0x1_0000 == (n / 0x100_0000) * 256 + (n / 0x1_0000) % 256;
    assert n / 256 == (n / 0x1_0000) * 256 + (n / 256) % 256;
  }

  lemma Le32Injective(a: U32, b: U32)
    requires Le32(a) == Le32(b)
    ensures a == b
  {
    Be32RoundTrip(a);
    Be32RoundTrip(b);
    assert Le32(a)[0] == Le32(b)[0] && Le32(a)[1] == Le32(b)[1];
    assert Le32(a)[2] == Le32(b)[2] && Le32(a)[3] == Le32(b)[3];
  }

  /** IN6_IS_ADDR_V4MAPPED. */
  predicate IsV4Mapped(ip: Ip) {
    ip[..10] == Zeros(10) && ip[10] == 255 && ip[11] == 255
  }

  /** IPV6_IS_ADDR_ANY: the unspecified address or IPv4-mapped 0.0.0.0. */
  predicate IsAny(ip: Ip) {
    ip == Zeros(16) || (IsV4Mapped(ip) && ip[12..] == Zeros(4))
  }

  /** IN6_IS_ADDR_LINKLOCAL: fe80::/10. */
  predicate IsLinkLocal(ip: Ip) {
    ip[0] == 0xfe && ip[1] / 64 == 2
  }

  function V4Mapped(v4: V4): (ip: Ip)
    ensures IsV4Mapped(ip) && ip[12..] == v4
  {
    var ip := Zeros(10) + [255, 255] + v4;
    assert ip[..10] == Zeros(10);
    ip
  }
}
