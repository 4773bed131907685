/**
 The special-purpose table (section 2.2 of RFC 6890), the safety test every candidate
 passes, the kind test, and the normalisation of IPv4-mapped prefixes
 (section 2.5.5.2 of RFC 4291).
 */
module Safety {
  import opened Prefixes

  datatype Kind = KindInvalid | KindIP | KindRange

  const SAFETY_PREFIXES: seq<Prefix> := [
    Prefix(V4, 0x0000_0000, 8),
    Prefix(V4, 0x0a00_0000, 8),
    Prefix(V4, 0x6440_0000, 10),
    Prefix(V4, 0x7f00_0000, 8),
    Prefix(V4, 0xa9fe_0000, 16),
    Prefix(V4, 0xac10_0000, 12),
    Prefix(V4, 0xc000_0000, 24),
    Prefix(V4, 0xc000_0200, 24),
    Prefix(V4, 0xc01f_c400, 24),
    Prefix(V4, 0xc034_c100, 24),
    Prefix(V4, 0xc058_6300, 24),
    Prefix(V4, 0xc0a8_0000, 16),
    Prefix(V4, 0xc0af_3000, 24),
    Prefix(V4, 0xc612_0000, 15),
    Prefix(V4, 0xc633_6400, 24),
    Prefix(V4, 0xcb00_7100, 24),
    Prefix(V4, 0xe000_0000, 4),
    Prefix(V4, 0xf000_0000, 4),
    Prefix(V6, 0, 128),
    Prefix(V6, 1, 128),
    Prefix(V6, 0x0000_0000_0000_0000_0000_ffff_0000_0000, 96),
    Prefix(V6, 0x0064_ff9b_0000_0000_0000_0000_0000_0000, 96),
    Prefix(V6, 0x0064_ff9b_0001_0000_0000_0000_0000_0000, 48),
    Prefix(V6, 0x0100_0000_0000_0000_0000_0000_0000_0000, 64),
    Prefix(V6, 0x2001_0000_0000_0000_0000_0000_0000_0000, 23),
    Prefix(V6, 0x2001_0db8_0000_0000_0000_0000_0000_0000, 32),
    Prefix(V6, 0x2002_0000_0000_0000_0000_0000_0000_0000, 16),
    Prefix(V6, 0x2620_004f_8000_0000_0000_0000_0000_0000, 48),
    Prefix(V6, 0x3fff_0000_0000_0000_0000_0000_0000_0000, 20),
    Prefix(V6, 0x5f00_0000_0000_0000_0000_0000_0000_0000, 16),
    Prefix(V6, 0xfc00_0000_0000_0000_0000_0000_0000_0000, 7),
    Prefix(V6, 0xfe80_0000_0000_0000_0000_0000_0000_0000, 10),
    Prefix(V6, 0xff00_0000_0000_0000_0000_0000_0000_0000, 8)
  ]

  const UNSPECIFIED_V4 := Addr(V4, 0)
  const BROADCAST_V4 := Addr(V4, 0xffff_ffff)
  const UNSPECIFIED_V6 := Addr(V6, 0)
  const LOOPBACK_V4 := Prefix(V4, 0x7f00_0000, 8)
  const LOOPBACK_V6 := Prefix(V6, 1, 128)
  const MULTICAST_V4 := Prefix(V4, 0xe000_0000, 4)
  const MULTICAST_V6 := Prefix(V6, 0xff00_0000_0000_0000_0000_0000_0000_0000, 8)
  const LINK_LOCAL_V4 := Prefix(V4, 0xa9fe_0000, 16)
  const LINK_LOCAL_V6 := Prefix(V6, 0xfe80_0000_0000_0000_0000_0000_0000_0000, 10)
  const MAPPED_V4 := Prefix(V6, 0xffff_0000_0000, 96)

  predicate IsGlobalUnicast(a: Addr) {
    a != UNSPECIFIED_V4 && a != BROADCAST_V4 && a != UNSPECIFIED_V6 &&
    !Contains(LOOPBACK_V4, a) && !Contains(LOOPBACK_V6, a) &&
    !Contains(MULTICAST_V4, a) && !Contains(MULTICAST_V6, a) &&
    !Contains(LINK_LOCAL_V4, a) && !Contains(LINK_LOCAL_V6, a)
  }

  /** Any overlap with the table rejects the whole prefix. */
  predicate IsSafePrefix(p: Prefix) {
    IsValid(p) && Masked(p) == p && IsGlobalUnicast(Base(p)) &&
    forall special :: special in SAFETY_PREFIXES ==> !Overlaps(p, special)
  }

  predicate ValidateKind(p: Prefix, kind: Kind) {
    IsValid(p) && Masked(p) == p &&
    match kind
    case KindIP => IsHost(p)
    case KindRange => true
    case KindInvalid => false
  }

  /** The addresses no ban may ever touch. */
  ghost function SpecialAddresses(): iset<Addr> {
    iset a: Addr, p: Prefix | p in SAFETY_PREFIXES && Contains(p, a) :: a
  }

  predicate Is4In6(p: Prefix)
    requires IsValid(p)
  {
    p.family == V6 && ShiftRight(p.value, 32) == 0xffff
  }

  /** What `NormalizePrefix` makes of a prefix it has parsed; None is its error. */
  function Normalize(p: Prefix): (r: Option<Prefix>) {
    if !IsValid(p) then None
    else if !Is4In6(p) then Some(Masked(p))
    else if p.bits < 96 then None
    else Some(Masked(Prefix(V4, p.value % 0x1_0000_0000, p.bits - 96)))
  }

  lemma SafeMissesSpecial(p: Prefix)
    requires IsSafePrefix(p)
    ensures Addresses(p) !! SpecialAddresses()
  {
    forall a | a in Addresses(p)
      ensures a !in SpecialAddresses()
    {
      forall special | special in SAFETY_PREFIXES
        ensures !Contains(special, a)
      {
        OverlapMeansSharing(p, special);
      }
    }
  }

  lemma {:induction false} ShiftSmall(v: nat, n: nat)
    requires v < ShiftLeft(1, n)
    ensures ShiftRight(v, n) == 0
    decreases n
  {
    if n != 0 { ShiftSmall(v / 2, n - 1); }
  }

  lemma {:induction false} ShiftLeftTwice(v: nat, a: nat, b: nat)
    ensures ShiftLeft(v, a + b) == ShiftLeft(ShiftLeft(v, a), b)
    decreases b
  {
    if b != 0 { ShiftLeftTwice(v, a, b - 1); }
  }

  lemma ShiftLeftFour(v: nat)
    ensures ShiftLeft(v, 4) == 16 * v
  {
    assert ShiftLeft(v, 2) == 4 * v;
  }

  lemma ShiftLeftSixteen(v: nat)
    ensures ShiftLeft(v, 16) == 0x1_0000 * v
  {
    ShiftLeftFour(v); ShiftLeftFour(16 * v); ShiftLeftFour(256 * v); ShiftLeftFour(4096 * v);
    ShiftLeftTwice(v, 4, 4); ShiftLeftTwice(v, 8, 4); ShiftLeftTwice(v, 12, 4);
  }

  lemma MappedLeadingBits()
    ensures ShiftRight(0xffff_0000_0000, 32) == 0xffff
  {
    ShiftBack(0xffff, 32);
    ShiftLeftSixteen(0xffff); ShiftLeftSixteen(0xffff_0000);
    ShiftLeftTwice(0xffff, 16, 16);
  }

  lemma MappedIsValid()
    ensures MAPPED_V4 in SAFETY_PREFIXES && IsValid(MAPPED_V4)
  {
    assert SAFETY_PREFIXES[20] == MAPPED_V4;
    MappedLeadingBits();
    ShiftRightTwice(0xffff_0000_0000, 32, 96);
    ShiftRightTwice(0xffff, 16, 80);
    ShiftLeftSixteen(1);
    ShiftSmall(0xffff, 16);
    ShiftSmall(0, 80);
  }

  /** An IPv4-mapped prefix overlaps the table's entry for that region. */
  lemma MappedOverlaps(p: Prefix)
    requires IsValid(p) && Is4In6(p) && IsValid(MAPPED_V4)
    ensures Overlaps(p, MAPPED_V4)
  {
    MappedLeadingBits();
    if p.bits < 96 {
      ShorterBlock(V6, p.bits, 96, p.value, MAPPED_V4.value);
    }
  }

  /** A safe prefix is never IPv4-mapped, so writing it down and reading it back changes nothing. */
  lemma SafeReadsBack(p: Prefix)
    requires IsSafePrefix(p)
    ensures !Is4In6(p) && Normalize(p) == Some(p)
  {
    MappedIsValid();
    if Is4In6(p) {
      MappedOverlaps(p);
    }
  }
}
