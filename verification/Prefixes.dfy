/**
 Addresses and CIDR prefixes, with the semantics that internal/network takes from
 Go's net/netip: a prefix denotes the block of addresses that agree with it on its
 first `bits` bits (section 3.1 of RFC 4632).
 */
module Prefixes {

  datatype Option<+T> = None | Some(value: T)

  datatype Family = V4 | V6

  datatype Addr = Addr(family: Family, value: nat)

  /** `Invalid` is the zero prefix, which callers can pass and every check rejects. */
  datatype Prefix = Invalid | Prefix(family: Family, value: nat, bits: nat)

  /** `v >> n`. */
  function ShiftRight(v: nat, n: nat): (r: nat)
    decreases n
  {
    if n == 0 then v else ShiftRight(v / 2, n - 1)
  }

  /** `v << n`. */
  function ShiftLeft(v: nat, n: nat): (r: nat)
    ensures v > 0 ==> r > 0
    decreases n
  {
    if n == 0 then v else 2 * ShiftLeft(v, n - 1)
  }

  function BitLen(f: Family): nat {
    match f case V4 => 32 case V6 => 128
  }

  predicate ValidAddr(a: Addr) {
    ShiftRight(a.value, BitLen(a.family)) == 0
  }

  predicate IsValid(p: Prefix) {
    p.Prefix? && p.bits <= BitLen(p.family) && ShiftRight(p.value, BitLen(p.family)) == 0
  }

  /** The leading `bits` bits of `v`: they name the block of that length that holds `v`. */
  function Block(f: Family, bits: nat, v: nat): nat
    requires bits <= BitLen(f)
  {
    ShiftRight(v, BitLen(f) - bits)
  }

  function Masked(p: Prefix): (r: Prefix) {
    if !IsValid(p) then Invalid
    else Prefix(p.family, ShiftLeft(Block(p.family, p.bits, p.value), BitLen(p.family) - p.bits), p.bits)
  }

  predicate IsHost(p: Prefix) {
    IsValid(p) && p.bits == BitLen(p.family)
  }

  /** An IPv4 address is never inside an IPv6 prefix, nor the reverse. */
  predicate Contains(p: Prefix, a: Addr) {
    IsValid(p) && ValidAddr(a) && a.family == p.family &&
    Block(p.family, p.bits, a.value) == Block(p.family, p.bits, p.value)
  }

  function Base(p: Prefix): Addr
    requires p.Prefix?
  {
    Addr(p.family, p.value)
  }

  /** The comparison Go makes: mask both to the shorter length and compare. */
  predicate Overlaps(p: Prefix, q: Prefix) {
    IsValid(p) && IsValid(q) && p.family == q.family &&
    var bits := if p.bits <= q.bits then p.bits else q.bits;
    Block(p.family, bits, p.value) == Block(p.family, bits, q.value)
  }

  /** The meaning of a prefix: the set of addresses it bans. */
  ghost function Addresses(p: Prefix): iset<Addr> {
    iset a: Addr | Contains(p, a)
  }

  lemma {:induction false} ShiftRightTwice(v: nat, a: nat, b: nat)
    ensures ShiftRight(v, a + b) == ShiftRight(ShiftRight(v, a), b)
    decreases a
  {
    if a != 0 {
      ShiftRightTwice(v / 2, a - 1, b);
      assert ShiftRight(v, a + b) == ShiftRight(v / 2, a - 1 + b);
    }
  }

  lemma {:induction false} ShiftBack(v: nat, n: nat)
    ensures ShiftRight(ShiftLeft(v, n), n) == v
    decreases n
  {
    if n != 0 {
      assert ShiftLeft(v, n) / 2 == ShiftLeft(v, n - 1);
      ShiftBack(v, n - 1);
    }
  }

  /** Addresses in the same long block are in the same short block. */
  lemma ShorterBlock(f: Family, short: nat, long: nat, u: nat, v: nat)
    requires short <= long <= BitLen(f)
    requires Block(f, long, u) == Block(f, long, v)
    ensures Block(f, short, u) == Block(f, short, v)
  {
    ShiftRightTwice(u, BitLen(f) - long, long - short);
    ShiftRightTwice(v, BitLen(f) - long, long - short);
  }

  /** Go's overlap test decides whether two blocks share an address. */
  lemma OverlapMeansSharing(p: Prefix, q: Prefix)
    ensures Overlaps(p, q) <==> exists a :: Contains(p, a) && Contains(q, a)
  {
    if Overlaps(p, q) {
      var longer := if p.bits <= q.bits then q else p;
      assert Contains(p, Base(longer)) && Contains(q, Base(longer));
    }
    forall a | Contains(p, a) && Contains(q, a)
      ensures Overlaps(p, q)
    {
      var bits := if p.bits <= q.bits then p.bits else q.bits;
      ShorterBlock(p.family, bits, p.bits, a.value, p.value);
      ShorterBlock(p.family, bits, q.bits, a.value, q.value);
    }
  }

  /** CIDR blocks are nested or disjoint; the shorter prefix is the outer block. */
  lemma NestedOrDisjoint(p: Prefix, q: Prefix)
    ensures Addresses(p) !! Addresses(q) <==> !Overlaps(p, q)
    ensures Overlaps(p, q) && p.bits <= q.bits ==> Addresses(q) <= Addresses(p)
  {
    OverlapMeansSharing(p, q);
    if Overlaps(p, q) {
      var a :| Contains(p, a) && Contains(q, a);
      assert a in Addresses(p) && a in Addresses(q);
      if p.bits <= q.bits {
        forall b | b in Addresses(q)
          ensures b in Addresses(p)
        {
          ShorterBlock(p.family, p.bits, q.bits, b.value, q.value);
        }
      }
    }
  }

  lemma MaskedIsMasked(p: Prefix)
    ensures IsValid(p) ==> IsValid(Masked(p))
    ensures Masked(Masked(p)) == Masked(p)
    ensures Addresses(Masked(p)) == Addresses(p)
  {
    if IsValid(p) {
      var n, block := BitLen(p.family) - p.bits, Block(p.family, p.bits, p.value);
      ShiftBack(block, n);
      ShiftRightTwice(p.value, n, p.bits);
      ShiftRightTwice(ShiftLeft(block, n), n, p.bits);
      assert Block(p.family, p.bits, Masked(p).value) == block;
    }
  }

  /** The block numbered `b` of `2^n` addresses. */
  lemma {:induction false} BlockRange(b: nat, n: nat, v: nat)
    ensures ShiftRight(v, n) == b <==> ShiftLeft(b, n) <= v < ShiftLeft(b + 1, n)
    decreases n
  {
    if n != 0 {
      BlockRange(b, n - 1, v / 2);
      assert ShiftRight(v, n) == ShiftRight(v / 2, n - 1);
    }
  }

  /** Masking keeps the length and takes the least address of the block. */
  lemma MaskedIsLeast(p: Prefix)
    requires IsValid(p)
    ensures Masked(p).bits == p.bits && Contains(p, Base(Masked(p)))
    ensures forall a :: Contains(p, a) ==> Masked(p).value <= a.value
  {
    var n, block := BitLen(p.family) - p.bits, Block(p.family, p.bits, p.value);
    MaskedIsMasked(p);
    assert Base(Masked(p)) in Addresses(Masked(p));
    forall a | Contains(p, a) ensures Masked(p).value <= a.value { BlockRange(block, n, a.value); }
  }

  /** Two masked prefixes of equal length that share an address are the same prefix. */
  lemma EqualLengthOverlap(p: Prefix, q: Prefix, a: Addr)
    requires Masked(p) == p && Masked(q) == q
    requires Contains(p, a) && Contains(q, a) && p.bits == q.bits
    ensures p == q
  {
  }

  lemma HostIsOneAddress(p: Prefix, a: Addr)
    requires IsHost(p) && Contains(p, a)
    ensures a == Base(p)
  {
  }
}
