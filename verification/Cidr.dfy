/** Address blocks as section 3.1 of RFC 4632 and section 2.3 of RFC 4291 define them: a bit string and how many
    of its leading bits name the network. */
module Cidr {
  datatype Family = V4 | V6

  function Width(f: Family): nat {
    match f
    case V4 => 32
    case V6 => 128
  }

  datatype Address = Address(family: Family, bits: seq<bool>)

  datatype RawBlock = RawBlock(base: Address, prefix: nat)

  /** What parsing a CIDR gives: the address as written, and the length of the prefix. */
  type Block = b: RawBlock | |b.base.bits| == Width(b.base.family) && b.prefix <= Width(b.base.family)
    witness RawBlock(Address(V4, seq(32, _ => false)), 0)

  /** The test of Go's `IPNet.Contains`: same family, same bits under the mask. */
  predicate Contains(net: Block, a: Address)
    requires |a.bits| == Width(a.family)
  {
    a.family == net.base.family && a.bits[..net.prefix] == net.base.bits[..net.prefix]
  }

  ghost predicate Within(inner: Block, outer: Block) {
    forall a: Address | |a.bits| == Width(a.family) && Contains(inner, a) :: Contains(outer, a)
  }

  /** A block lies in another exactly when its own address does and its prefix is at least as long. */
  lemma WithinIff(inner: Block, outer: Block)
    ensures Within(inner, outer) <==> Contains(outer, inner.base) && inner.prefix >= outer.prefix
  {
    if Contains(outer, inner.base) && inner.prefix >= outer.prefix {
      forall a: Address | |a.bits| == Width(a.family) && Contains(inner, a) ensures Contains(outer, a) {
        assert a.bits[..outer.prefix] == a.bits[..inner.prefix][..outer.prefix];
        assert inner.base.bits[..outer.prefix] == inner.base.bits[..inner.prefix][..outer.prefix];
      }
    } else {
      assert Contains(inner, inner.base);
      if Contains(outer, inner.base) {
        var k := inner.prefix;
        var a := inner.base.(bits := inner.base.bits[k := !inner.base.bits[k]]);
        assert a.bits[..k] == inner.base.bits[..k];
        assert Contains(inner, a);
        assert a.bits[..outer.prefix][k] != inner.base.bits[..outer.prefix][k];
        assert !Contains(outer, a);
      }
    }
  }

  function Octet(n: nat): seq<bool>
    ensures |Octet(n)| == 8
  {
    [n / 128 % 2 == 1, n / 64 % 2 == 1, n / 32 % 2 == 1, n / 16 % 2 == 1,
     n / 8 % 2 == 1, n / 4 % 2 == 1, n / 2 % 2 == 1, n % 2 == 1]
  }

  /** The IPv4 block a.b.c.d/prefix. */
  function V4Block(a: nat, b: nat, c: nat, d: nat, prefix: nat): Block
    requires prefix <= 32
  {
    RawBlock(Address(V4, Octet(a) + Octet(b) + Octet(c) + Octet(d)), prefix)
  }

  /** Without the comparison of lengths the base address says little: 10.0.0.0/8 starts inside 10.0.0.0/16. */
  lemma LengthMatters()
    ensures var wide, vcn := V4Block(10, 0, 0, 0, 8), V4Block(10, 0, 0, 0, 16);
      Contains(vcn, wide.base) && !Within(wide, vcn)
  {
    WithinIff(V4Block(10, 0, 0, 0, 8), V4Block(10, 0, 0, 0, 16));
  }
}
