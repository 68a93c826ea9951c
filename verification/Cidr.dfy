/**
  IP prefixes as the routing model needs them: a family, the address bits most
  significant first, and a prefix length (section 3.1 of RFC 4632, section 2.3
  of RFC 4291). Host bits may be set, as in the `IpNet` values that arrive over
  the wire.
 */
module Cidr {

  datatype Family = V4 | V6

  function Width(family: Family): nat {
    match family
    case V4 => 32
    case V6 => 128
  }

  datatype Prefix = Prefix(family: Family, bits: seq<bool>, len: nat) {
    predicate Valid() {
      |bits| == Width(family) && len <= |bits|
    }
  }

  function Zeros(n: nat): (r: seq<bool>)
    ensures |r| == n
  {
    seq(n, _ => false)
  }

  type Net = p: Prefix | p.Valid() witness Prefix(V4, Zeros(32), 0)

  datatype Address = Address(family: Family, bits: seq<bool>)

  type Addr = a: Address | |a.bits| == Width(a.family) witness Address(V4, Zeros(32))

  /** `IpNet::trunc`: clear the host bits. */
  function Trunc(n: Net): (r: Net) {
    Prefix(n.family, n.bits[..n.len] + Zeros(|n.bits| - n.len), n.len)
  }

  predicate Canonical(n: Net) {
    Trunc(n) == n
  }

  /** `IpNet::contains(&IpNet)`: the same family and an initial segment. */
  predicate Contains(outer: Net, inner: Net) {
    && outer.family == inner.family
    && outer.len <= inner.len
    && inner.bits[..outer.len] == outer.bits[..outer.len]
  }

  /** Whether a packet to `x` is covered by a route for `n`. */
  predicate Covers(n: Net, x: Addr) {
    && n.family == x.family
    && x.bits[..n.len] == n.bits[..n.len]
  }

  /** The network address, which every prefix covers. */
  function Base(n: Net): (x: Addr)
    ensures Covers(n, x)
  {
    Address(n.family, n.bits)
  }

  /** The address that agrees with `n` on its prefix and has every host bit flipped. */
  function Opposite(n: Net): (x: Addr)
    ensures Covers(n, x)
    ensures forall i :: n.len <= i < |n.bits| ==> x.bits[i] != n.bits[i]
  {
    var host := seq(|n.bits| - n.len, i requires 0 <= i < |n.bits| - n.len => !n.bits[n.len + i]);
    Address(n.family, n.bits[..n.len] + host)
  }

  /** The host bits, and nothing else, are cleared; canonical is what has none set. */
  lemma TruncClears(n: Net)
    ensures Trunc(n).family == n.family && Trunc(n).len == n.len && |Trunc(n).bits| == |n.bits|
    ensures forall i :: 0 <= i < |n.bits| ==> Trunc(n).bits[i] == (i < n.len && n.bits[i])
    ensures Canonical(n) <==> forall i :: n.len <= i < |n.bits| ==> !n.bits[i]
  {
    if forall i :: n.len <= i < |n.bits| ==> !n.bits[i] {
      assert Trunc(n).bits == n.bits;
    }
  }

  /** Clearing the host bits changes neither the covered addresses nor any containment. */
  lemma TruncKeepsMeaning(n: Net)
    ensures Canonical(Trunc(n))
    ensures forall x: Addr :: Covers(Trunc(n), x) <==> Covers(n, x)
    ensures forall other: Net :: Contains(other, Trunc(n)) <==> Contains(other, n)
    ensures forall other: Net :: Contains(Trunc(n), other) <==> Contains(n, other)
  {
    assert Trunc(n).bits[..n.len] == n.bits[..n.len];
    forall other: Net | other.len <= n.len
      ensures Trunc(n).bits[..other.len] == n.bits[..other.len]
    {
      assert Trunc(n).bits[..other.len] == n.bits[..n.len][..other.len];
    }
  }

  /** A prefix that is not contained covers an address the other one misses. */
  lemma Separating(outer: Net, inner: Net) returns (x: Addr)
    requires !Contains(outer, inner)
    ensures Covers(inner, x) && !Covers(outer, x)
  {
    x := Base(inner);
    if Covers(outer, x) {
      assert inner.bits[..outer.len][inner.len] == outer.bits[..outer.len][inner.len];
      x := Opposite(inner);
      assert x.bits[..outer.len][inner.len] != outer.bits[..outer.len][inner.len];
    }
  }

  /** The syntactic containment test is exactly inclusion of the covered addresses. */
  lemma ContainsIsInclusion(outer: Net, inner: Net)
    ensures Contains(outer, inner) <==> forall x: Addr :: Covers(inner, x) ==> Covers(outer, x)
  {
    if Contains(outer, inner) {
      forall x: Addr | Covers(inner, x)
        ensures Covers(outer, x)
      {
        assert x.bits[..outer.len] == x.bits[..inner.len][..outer.len];
        assert inner.bits[..outer.len] == inner.bits[..inner.len][..outer.len];
      }
    }
    if !Contains(outer, inner) {
      var x := Separating(outer, inner);
    }
  }

  /** Two prefixes that cover a common address are nested. */
  lemma CoveringPrefixesNest(a: Net, b: Net, x: Addr)
    requires Covers(a, x) && Covers(b, x) && a.len <= b.len
    ensures Contains(a, b)
  {
    assert b.bits[..a.len] == b.bits[..b.len][..a.len] == x.bits[..b.len][..a.len] == x.bits[..a.len];
  }

  lemma ContainsCovers(a: Net, b: Net, x: Addr)
    requires Contains(a, b) && Covers(b, x)
    ensures Covers(a, x)
  {
    ContainsIsInclusion(a, b);
  }
}
