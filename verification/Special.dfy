/**
 The special-purpose blocks of internal/network/safety.go by their first and last addresses
 (section 2.2 of RFC 6890), and the proof that the safety test refuses exactly the prefixes that hold an address of
 one of them.
 */
module Special {
  import opened Prefixes
  import opened Safety

  datatype Range = Range(family: Family, first: nat, last: nat)

  const SPECIAL_RANGES: seq<Range> := [
    Range(V4, 0x0000_0000, 0x00ff_ffff),
    Range(V4, 0x0a00_0000, 0x0aff_ffff),
    Range(V4, 0x6440_0000, 0x647f_ffff),
    Range(V4, 0x7f00_0000, 0x7fff_ffff),
    Range(V4, 0xa9fe_0000, 0xa9fe_ffff),
    Range(V4, 0xac10_0000, 0xac1f_ffff),
    Range(V4, 0xc000_0000, 0xc000_00ff),
    Range(V4, 0xc000_0200, 0xc000_02ff),
    Range(V4, 0xc01f_c400, 0xc01f_c4ff),
    Range(V4, 0xc034_c100, 0xc034_c1ff),
    Range(V4, 0xc058_6300, 0xc058_63ff),
    Range(V4, 0xc0a8_0000, 0xc0a8_ffff),
    Range(V4, 0xc0af_3000, 0xc0af_30ff),
    Range(V4, 0xc612_0000, 0xc613_ffff),
    Range(V4, 0xc633_6400, 0xc633_64ff),
    Range(V4, 0xcb00_7100, 0xcb00_71ff),
    Range(V4, 0xe000_0000, 0xefff_ffff),
    Range(V4, 0xf000_0000, 0xffff_ffff),
    Range(V6, 0, 0),
    Range(V6, 1, 1),
    Range(V6, 0x0000_0000_0000_0000_0000_ffff_0000_0000, 0x0000_0000_0000_0000_0000_ffff_ffff_ffff),
    Range(V6, 0x0064_ff9b_0000_0000_0000_0000_0000_0000, 0x0064_ff9b_0000_0000_0000_0000_ffff_ffff),
    Range(V6, 0x0064_ff9b_0001_0000_0000_0000_0000_0000, 0x0064_ff9b_0001_ffff_ffff_ffff_ffff_ffff),
    Range(V6, 0x0100_0000_0000_0000_0000_0000_0000_0000, 0x0100_0000_0000_0000_ffff_ffff_ffff_ffff),
    Range(V6, 0x2001_0000_0000_0000_0000_0000_0000_0000, 0x2001_01ff_ffff_ffff_ffff_ffff_ffff_ffff),
    Range(V6, 0x2001_0db8_0000_0000_0000_0000_0000_0000, 0x2001_0db8_ffff_ffff_ffff_ffff_ffff_ffff),
    Range(V6, 0x2002_0000_0000_0000_0000_0000_0000_0000, 0x2002_ffff_ffff_ffff_ffff_ffff_ffff_ffff),
    Range(V6, 0x2620_004f_8000_0000_0000_0000_0000_0000, 0x2620_004f_8000_ffff_ffff_ffff_ffff_ffff),
    Range(V6, 0x3fff_0000_0000_0000_0000_0000_0000_0000, 0x3fff_0fff_ffff_ffff_ffff_ffff_ffff_ffff),
    Range(V6, 0x5f00_0000_0000_0000_0000_0000_0000_0000, 0x5f00_ffff_ffff_ffff_ffff_ffff_ffff_ffff),
    Range(V6, 0xfc00_0000_0000_0000_0000_0000_0000_0000, 0xfdff_ffff_ffff_ffff_ffff_ffff_ffff_ffff),
    Range(V6, 0xfe80_0000_0000_0000_0000_0000_0000_0000, 0xfebf_ffff_ffff_ffff_ffff_ffff_ffff_ffff),
    Range(V6, 0xff00_0000_0000_0000_0000_0000_0000_0000, 0xffff_ffff_ffff_ffff_ffff_ffff_ffff_ffff)
  ]

  predicate InRange(a: Addr, r: Range) { a.family == r.family && r.first <= a.value <= r.last }

  predicate IsSpecial(a: Addr) { exists r :: r in SPECIAL_RANGES && InRange(a, r) }

  // ----- Shifts as multiplication by a power of two -----

  lemma By0(v: nat) ensures ShiftLeft(v, 0) == v {}

  lemma By4(v: nat) ensures ShiftLeft(v, 4) == 0x10 * v { ShiftLeftFour(v); }

  lemma By8(v: nat) ensures ShiftLeft(v, 8) == 0x100 * v { Compose(v, 4, 4); By4(v); By4(0x10 * v); }

  lemma By16(v: nat) ensures ShiftLeft(v, 16) == 0x1_0000 * v { Compose(v, 8, 8); By8(v); By8(0x100 * v); }

  lemma By32(v: nat) ensures ShiftLeft(v, 32) == 0x1_0000_0000 * v { Compose(v, 16, 16); By16(v); By16(0x1_0000 * v); }

  lemma By64(v: nat)
    ensures ShiftLeft(v, 64) == 0x1_0000_0000_0000_0000 * v
  {
    Compose(v, 32, 32);
    By32(v);
    By32(0x1_0000_0000 * v);
  }

  lemma By96(v: nat)
    ensures ShiftLeft(v, 96) == 0x1_0000_0000_0000_0000_0000_0000 * v
  {
    Compose(v, 64, 32);
    By64(v);
    By32(0x1_0000_0000_0000_0000 * v);
  }

  lemma By1(v: nat) ensures ShiftLeft(v, 1) == 2 * v { assert ShiftLeft(v, 0) == v; }

  lemma By2(v: nat) ensures ShiftLeft(v, 2) == 4 * v { Compose(v, 1, 1); By1(v); By1(2 * v); }

  lemma Compose(v: nat, a: nat, b: nat)
    ensures ShiftLeft(v, a + b) == ShiftLeft(ShiftLeft(v, a), b)
  {
    ShiftLeftTwice(v, a, b);
  }

  lemma By20(v: nat)
    ensures ShiftLeft(v, 20) == 0x10_0000 * v
  {
    Compose(v, 16, 4);
    By16(v);
    By4(0x1_0000 * v);
  }

  lemma By22(v: nat)
    ensures ShiftLeft(v, 22) == 0x40_0000 * v
  {
    Compose(v, 20, 2);
    By20(v);
    By2(0x10_0000 * v);
  }

  lemma By17(v: nat)
    ensures ShiftLeft(v, 17) == 0x2_0000 * v
  {
    Compose(v, 16, 1);
    By16(v);
    By1(0x1_0000 * v);
  }

  lemma By24(v: nat)
    ensures ShiftLeft(v, 24) == 0x100_0000 * v
  {
    Compose(v, 16, 8);
    By16(v);
    By8(0x1_0000 * v);
  }

  lemma By28(v: nat)
    ensures ShiftLeft(v, 28) == 0x1000_0000 * v
  {
    Compose(v, 24, 4);
    By24(v);
    By4(0x100_0000 * v);
  }

  lemma By80(v: nat)
    ensures ShiftLeft(v, 80) == 0x1_0000_0000_0000_0000_0000 * v
  {
    Compose(v, 64, 16);
    By64(v);
    By16(0x1_0000_0000_0000_0000 * v);
  }

  lemma By104(v: nat)
    ensures ShiftLeft(v, 104) == 0x100_0000_0000_0000_0000_0000_0000 * v
  {
    Compose(v, 96, 8);
    By96(v);
    By8(0x1_0000_0000_0000_0000_0000_0000 * v);
  }

  lemma By105(v: nat)
    ensures ShiftLeft(v, 105) == 0x200_0000_0000_0000_0000_0000_0000 * v
  {
    Compose(v, 104, 1);
    By104(v);
    By1(0x100_0000_0000_0000_0000_0000_0000 * v);
  }

  lemma By108(v: nat)
    ensures ShiftLeft(v, 108) == 0x1000_0000_0000_0000_0000_0000_0000 * v
  {
    Compose(v, 104, 4);
    By104(v);
    By4(0x100_0000_0000_0000_0000_0000_0000 * v);
  }

  lemma By112(v: nat)
    ensures ShiftLeft(v, 112) == 0x1_0000_0000_0000_0000_0000_0000_0000 * v
  {
    Compose(v, 96, 16);
    By96(v);
    By16(0x1_0000_0000_0000_0000_0000_0000 * v);
  }

  lemma By116(v: nat)
    ensures ShiftLeft(v, 116) == 0x10_0000_0000_0000_0000_0000_0000_0000 * v
  {
    Compose(v, 112, 4);
    By112(v);
    By4(0x1_0000_0000_0000_0000_0000_0000_0000 * v);
  }

  lemma By118(v: nat)
    ensures ShiftLeft(v, 118) == 0x40_0000_0000_0000_0000_0000_0000_0000 * v
  {
    Compose(v, 116, 2);
    By116(v);
    By2(0x10_0000_0000_0000_0000_0000_0000_0000 * v);
  }

  lemma By120(v: nat)
    ensures ShiftLeft(v, 120) == 0x100_0000_0000_0000_0000_0000_0000_0000 * v
  {
    Compose(v, 112, 8);
    By112(v);
    By8(0x1_0000_0000_0000_0000_0000_0000_0000 * v);
  }

  lemma By121(v: nat)
    ensures ShiftLeft(v, 121) == 0x200_0000_0000_0000_0000_0000_0000_0000 * v
  {
    Compose(v, 120, 1);
    By120(v);
    By1(0x100_0000_0000_0000_0000_0000_0000_0000 * v);
  }

  /** The table's entry and the range are the same block. */
  predicate SameBlock(p: Prefix, r: Range, b: nat) {
    p.Prefix? && p.family == r.family && p.bits <= BitLen(p.family) &&
    var n := BitLen(p.family) - p.bits;
    p.value == r.first == ShiftLeft(b, n) && r.last + 1 == ShiftLeft(b + 1, n)
  }

  lemma SameBlockContains(p: Prefix, r: Range, b: nat, a: Addr)
    requires SameBlock(p, r, b) && ValidAddr(a)
    ensures Contains(p, a) <==> InRange(a, r)
  {
    var n := BitLen(p.family) - p.bits;
    BlockRange(b, n, a.value);
    BlockRange(b, n, p.value);
    GrowsStrictly(b, n);
    if a.family == p.family && InRange(a, r) {
      ShiftRightTwice(a.value, n, p.bits);
      ShiftRightTwice(p.value, n, p.bits);
    }
  }

  lemma {:induction false} GrowsStrictly(b: nat, n: nat)
    ensures ShiftLeft(b, n) < ShiftLeft(b + 1, n)
    decreases n
  {
    if n != 0 { GrowsStrictly(b, n - 1); }
  }

  /** Entry `i` of the table and range `i` hold the same addresses. */
  ghost predicate Matches(i: nat)
    requires i < |SAFETY_PREFIXES| == |SPECIAL_RANGES|
  {
    exists b :: SameBlock(SAFETY_PREFIXES[i], SPECIAL_RANGES[i], b)
  }

  lemma Entries0(i: nat)
    requires 0 <= i < 4
    ensures Matches(i)
  {
    hide ShiftLeft;
    By24(0); By24(1);
    assert SameBlock(SAFETY_PREFIXES[0], SPECIAL_RANGES[0], 0);
    By24(0xa); By24(0xb);
    assert SameBlock(SAFETY_PREFIXES[1], SPECIAL_RANGES[1], 0xa);
    By22(0x191); By22(0x192);
    assert SameBlock(SAFETY_PREFIXES[2], SPECIAL_RANGES[2], 0x191);
    By24(0x7f); By24(0x80);
    assert SameBlock(SAFETY_PREFIXES[3], SPECIAL_RANGES[3], 0x7f);
  }

  lemma Entries1(i: nat)
    requires 4 <= i < 8
    ensures Matches(i)
  {
    hide ShiftLeft;
    By16(0xa9fe); By16(0xa9ff);
    assert SameBlock(SAFETY_PREFIXES[4], SPECIAL_RANGES[4], 0xa9fe);
    By20(0xac1); By20(0xac2);
    assert SameBlock(SAFETY_PREFIXES[5], SPECIAL_RANGES[5], 0xac1);
    By8(0xc0_0000); By8(0xc0_0001);
    assert SameBlock(SAFETY_PREFIXES[6], SPECIAL_RANGES[6], 0xc0_0000);
    By8(0xc0_0002); By8(0xc0_0003);
    assert SameBlock(SAFETY_PREFIXES[7], SPECIAL_RANGES[7], 0xc0_0002);
  }

  lemma Entries2(i: nat)
    requires 8 <= i < 12
    ensures Matches(i)
  {
    hide ShiftLeft;
    By8(0xc0_1fc4); By8(0xc0_1fc5);
    assert SameBlock(SAFETY_PREFIXES[8], SPECIAL_RANGES[8], 0xc0_1fc4);
    By8(0xc0_34c1); By8(0xc0_34c2);
    assert SameBlock(SAFETY_PREFIXES[9], SPECIAL_RANGES[9], 0xc0_34c1);
    By8(0xc0_5863); By8(0xc0_5864);
    assert SameBlock(SAFETY_PREFIXES[10], SPECIAL_RANGES[10], 0xc0_5863);
    By16(0xc0a8); By16(0xc0a9);
    assert SameBlock(SAFETY_PREFIXES[11], SPECIAL_RANGES[11], 0xc0a8);
  }

  lemma Entries3(i: nat)
    requires 12 <= i < 16
    ensures Matches(i)
  {
    hide ShiftLeft;
    By8(0xc0_af30); By8(0xc0_af31);
    assert SameBlock(SAFETY_PREFIXES[12], SPECIAL_RANGES[12], 0xc0_af30);
    By17(0x6309); By17(0x630a);
    assert SameBlock(SAFETY_PREFIXES[13], SPECIAL_RANGES[13], 0x6309);
    By8(0xc6_3364); By8(0xc6_3365);
    assert SameBlock(SAFETY_PREFIXES[14], SPECIAL_RANGES[14], 0xc6_3364);
    By8(0xcb_0071); By8(0xcb_0072);
    assert SameBlock(SAFETY_PREFIXES[15], SPECIAL_RANGES[15], 0xcb_0071);
  }

  lemma Entries4(i: nat)
    requires 16 <= i < 20
    ensures Matches(i)
  {
    hide ShiftLeft;
    By28(0xe); By28(0xf);
    assert SameBlock(SAFETY_PREFIXES[16], SPECIAL_RANGES[16], 0xe);
    By28(0xf); By28(0x10);
    assert SameBlock(SAFETY_PREFIXES[17], SPECIAL_RANGES[17], 0xf);
    By0(0); By0(1);
    assert SameBlock(SAFETY_PREFIXES[18], SPECIAL_RANGES[18], 0);
    By0(1); By0(2);
    assert SameBlock(SAFETY_PREFIXES[19], SPECIAL_RANGES[19], 1);
  }

  lemma Entries5(i: nat)
    requires 20 <= i < 24
    ensures Matches(i)
  {
    hide ShiftLeft;
    By32(0xffff); By32(0x1_0000);
    assert SameBlock(SAFETY_PREFIXES[20], SPECIAL_RANGES[20], 0xffff);
    By32(0x64_ff9b_0000_0000_0000_0000); By32(0x64_ff9b_0000_0000_0000_0001);
    assert SameBlock(SAFETY_PREFIXES[21], SPECIAL_RANGES[21], 0x64_ff9b_0000_0000_0000_0000);
    By80(0x64_ff9b_0001); By80(0x64_ff9b_0002);
    assert SameBlock(SAFETY_PREFIXES[22], SPECIAL_RANGES[22], 0x64_ff9b_0001);
    By64(0x100_0000_0000_0000); By64(0x100_0000_0000_0001);
    assert SameBlock(SAFETY_PREFIXES[23], SPECIAL_RANGES[23], 0x100_0000_0000_0000);
  }

  lemma Entries6(i: nat)
    requires 24 <= i < 28
    ensures Matches(i)
  {
    hide ShiftLeft;
    By105(0x10_0080); By105(0x10_0081);
    assert SameBlock(SAFETY_PREFIXES[24], SPECIAL_RANGES[24], 0x10_0080);
    By96(0x2001_0db8); By96(0x2001_0db9);
    assert SameBlock(SAFETY_PREFIXES[25], SPECIAL_RANGES[25], 0x2001_0db8);
    By112(0x2002); By112(0x2003);
    assert SameBlock(SAFETY_PREFIXES[26], SPECIAL_RANGES[26], 0x2002);
    By80(0x2620_004f_8000); By80(0x2620_004f_8001);
    assert SameBlock(SAFETY_PREFIXES[27], SPECIAL_RANGES[27], 0x2620_004f_8000);
  }

  lemma Entries7(i: nat)
    requires 28 <= i < 33
    ensures Matches(i)
  {
    hide ShiftLeft;
    By108(0x3_fff0); By108(0x3_fff1);
    assert SameBlock(SAFETY_PREFIXES[28], SPECIAL_RANGES[28], 0x3_fff0);
    By112(0x5f00); By112(0x5f01);
    assert SameBlock(SAFETY_PREFIXES[29], SPECIAL_RANGES[29], 0x5f00);
    By121(0x7e); By121(0x7f);
    assert SameBlock(SAFETY_PREFIXES[30], SPECIAL_RANGES[30], 0x7e);
    By118(0x3fa); By118(0x3fb);
    assert SameBlock(SAFETY_PREFIXES[31], SPECIAL_RANGES[31], 0x3fa);
    By120(0xff); By120(0x100);
    assert SameBlock(SAFETY_PREFIXES[32], SPECIAL_RANGES[32], 0xff);
  }

  lemma Entries(i: nat)
    requires i < |SAFETY_PREFIXES|
    ensures |SAFETY_PREFIXES| == |SPECIAL_RANGES| && Matches(i)
  {
    hide Matches;
    if i < 4 {
      Entries0(i);
    } else if i < 8 {
      Entries1(i);
    } else if i < 12 {
      Entries2(i);
    } else if i < 16 {
      Entries3(i);
    } else if i < 20 {
      Entries4(i);
    } else if i < 24 {
      Entries5(i);
    } else if i < 28 {
      Entries6(i);
    } else {
      Entries7(i);
    }
  }

  lemma EntryHolds(i: nat, a: Addr)
    requires i < |SAFETY_PREFIXES| && ValidAddr(a)
    ensures |SAFETY_PREFIXES| == |SPECIAL_RANGES|
    ensures Contains(SAFETY_PREFIXES[i], a) <==> InRange(a, SPECIAL_RANGES[i])
  {
    hide SameBlock, Contains, InRange, ValidAddr, SAFETY_PREFIXES, SPECIAL_RANGES;
    Entries(i);
    var b :| SameBlock(SAFETY_PREFIXES[i], SPECIAL_RANGES[i], b);
    SameBlockContains(SAFETY_PREFIXES[i], SPECIAL_RANGES[i], b, a);
  }

  lemma SameLength()
    ensures |SAFETY_PREFIXES| == |SPECIAL_RANGES|
  {
  }

  lemma ContainsValid(p: Prefix, a: Addr)
    requires Contains(p, a)
    ensures ValidAddr(a)
  {
  }

  /** The table of prefixes and the ranges describe the same addresses. */
  lemma TableIsRanges(a: Addr)
    ensures a in SpecialAddresses() <==> ValidAddr(a) && IsSpecial(a)
  {
    hide Contains, InRange, ValidAddr, SAFETY_PREFIXES, SPECIAL_RANGES;
    SameLength();
    if a in SpecialAddresses() {
      var p :| p in SAFETY_PREFIXES && Contains(p, a);
      var i :| 0 <= i < |SAFETY_PREFIXES| && SAFETY_PREFIXES[i] == p;
      ContainsValid(p, a);
      EntryHolds(i, a);
    }
    if ValidAddr(a) && IsSpecial(a) {
      var r :| r in SPECIAL_RANGES && InRange(a, r);
      var i :| 0 <= i < |SPECIAL_RANGES| && SPECIAL_RANGES[i] == r;
      EntryHolds(i, a);
      assert SAFETY_PREFIXES[i] in SAFETY_PREFIXES;
    }
  }

  /** The blocks that Go's own tests name are in the table. */
  lemma UnicastBlocksListed()
    ensures LOOPBACK_V4 in SAFETY_PREFIXES && LOOPBACK_V6 in SAFETY_PREFIXES
    ensures MULTICAST_V4 in SAFETY_PREFIXES && MULTICAST_V6 in SAFETY_PREFIXES
    ensures LINK_LOCAL_V4 in SAFETY_PREFIXES && LINK_LOCAL_V6 in SAFETY_PREFIXES
  {
    assert SAFETY_PREFIXES[3] == LOOPBACK_V4 && SAFETY_PREFIXES[19] == LOOPBACK_V6;
    assert SAFETY_PREFIXES[16] == MULTICAST_V4 && SAFETY_PREFIXES[32] == MULTICAST_V6;
    assert SAFETY_PREFIXES[4] == LINK_LOCAL_V4 && SAFETY_PREFIXES[31] == LINK_LOCAL_V6;
  }

  lemma EndsAreSpecial()
    ensures IsSpecial(UNSPECIFIED_V4) && IsSpecial(BROADCAST_V4) && IsSpecial(UNSPECIFIED_V6)
  {
    assert InRange(UNSPECIFIED_V4, SPECIAL_RANGES[0]);
    assert InRange(BROADCAST_V4, SPECIAL_RANGES[17]);
    assert InRange(UNSPECIFIED_V6, SPECIAL_RANGES[18]);
  }

  lemma NotUnicastIsSpecial(a: Addr)
    requires ValidAddr(a) && !IsGlobalUnicast(a)
    ensures IsSpecial(a)
  {
    hide Contains, ValidAddr, IsSpecial, SAFETY_PREFIXES, SPECIAL_RANGES;
    hide LOOPBACK_V4, LOOPBACK_V6, MULTICAST_V4, MULTICAST_V6, LINK_LOCAL_V4, LINK_LOCAL_V6;
    UnicastBlocksListed();
    EndsAreSpecial();
    TableIsRanges(a);
  }

  /** The safety test refuses exactly the prefixes that are not in normal form or hold a special-purpose address. */
  lemma SafeIffNoSpecial(p: Prefix)
    ensures IsSafePrefix(p) <==>
      IsValid(p) && Masked(p) == p && forall a :: Contains(p, a) ==> !IsSpecial(a)
  {
    hide Overlaps, IsSpecial, Masked, IsGlobalUnicast, SAFETY_PREFIXES, SPECIAL_RANGES;
    if IsSafePrefix(p) {
      SafeMissesSpecial(p);
      forall a | Contains(p, a)
        ensures !IsSpecial(a)
      {
        TableIsRanges(a);
        assert a in Addresses(p);
      }
    }
    if IsValid(p) && Masked(p) == p && forall a :: Contains(p, a) ==> !IsSpecial(a) {
      assert Contains(p, Base(p));
      if !IsGlobalUnicast(Base(p)) { NotUnicastIsSpecial(Base(p)); }
      forall special | special in SAFETY_PREFIXES
        ensures !Overlaps(p, special)
      {
        OverlapMeansSharing(p, special);
        if a :| Contains(p, a) && Contains(special, a) { TableIsRanges(a); }
      }
    }
  }

  /** A prefix that may become a ban: no special-purpose address, and a single address if it calls itself one. */
  ghost predicate MayBan(p: Prefix, kind: Kind) {
    IsValid(p) && (forall a :: Contains(p, a) ==> !IsSpecial(a)) &&
    (kind == KindRange || (kind == KindIP && p.bits == BitLen(p.family)))
  }

  /** What the safety and kind tests decide, once the prefix is masked. */
  lemma MayBanMeans(p: Prefix, kind: Kind)
    ensures IsSafePrefix(Masked(p)) && ValidateKind(Masked(p), kind) <==> MayBan(p, kind)
  {
    hide Contains, IsSpecial, IsSafePrefix;
    var m := Masked(p);
    MaskedIsMasked(p);
    SafeIffNoSpecial(m);
    if IsValid(p) {
      assert m.bits == p.bits && m.family == p.family;
      forall a
        ensures Contains(m, a) <==> Contains(p, a)
      {
        assert a in Addresses(m) <==> a in Addresses(p);
      }
    }
  }

  // ----- IPv4-mapped prefixes -----

  const MAPPED_FIRST: nat := 0xffff_0000_0000
  const MAPPED_LAST: nat := 0xffff_ffff_ffff

  lemma MappedMeans(v: nat)
    ensures ShiftRight(v, 32) == 0xffff <==> MAPPED_FIRST <= v <= MAPPED_LAST
  {
    hide ShiftRight, ShiftLeft;
    BlockRange(0xffff, 32, v);
    By32(0xffff);
    By32(0x1_0000);
  }

  lemma {:induction false} ShiftSum(c: nat, k: nat, v: nat, n: nat)
    requires n <= k
    ensures ShiftRight(ShiftLeft(c, k) + v, n) == ShiftLeft(c, k - n) + ShiftRight(v, n)
    decreases n
  {
    if n != 0 {
      assert (ShiftLeft(c, k) + v) / 2 == ShiftLeft(c, k - 1) + v / 2;
      ShiftSum(c, k - 1, v / 2, n - 1);
    }
  }

  /** Below the mapped block, IPv6 addresses agree on their leading bits exactly when the IPv4 addresses do. */
  lemma MappedBlocks(v: nat, w: nat, n: nat)
    requires n <= 32
    ensures ShiftRight(MAPPED_FIRST + v, n) == ShiftRight(MAPPED_FIRST + w, n) <==> ShiftRight(v, n) == ShiftRight(w, n)
  {
    hide ShiftRight, ShiftLeft;
    By32(0xffff);
    ShiftSum(0xffff, 32, v, n);
    ShiftSum(0xffff, 32, w, n);
  }

  /** An IPv4 address has 32 bits; its mapped form has 128. */
  lemma ShortValue(v: nat)
    ensures ShiftRight(v, 32) == 0 <==> v < 0x1_0000_0000
    ensures v < 0x1_0000_0000 ==> ShiftRight(MAPPED_FIRST + v, 128) == 0
  {
    hide ShiftRight, ShiftLeft;
    BlockRange(0, 32, v);
    By32(0);
    By32(1);
    BlockRange(0, 128, MAPPED_FIRST + v);
    Compose(1, 64, 64);
    By64(1);
    By64(0x1_0000_0000_0000_0000);
    Compose(0, 64, 64);
    By64(0);
  }

  /** A prefix of IPv4-mapped addresses shorter than the mapped block is refused, as is an invalid one. */
  lemma NormalizeRefuses(p: Prefix)
    ensures Normalize(p) == None <==>
            !IsValid(p) || (p.family == V6 && MAPPED_FIRST <= p.value <= MAPPED_LAST && p.bits < 96)
  {
    hide ShiftRight, ShiftLeft;
    if IsValid(p) { MappedMeans(p.value); }
  }

  /** Any other prefix keeps its addresses; a mapped one bans the IPv4 addresses that its own stand for. */
  lemma NormalizeKeepsAddresses(p: Prefix)
    requires Normalize(p).Some?
    ensures var q := Normalize(p).value;
            IsValid(q) && Masked(q) == q &&
            if p.family == V6 && MAPPED_FIRST <= p.value <= MAPPED_LAST
            then q.family == V4 && forall v: nat :: v < 0x1_0000_0000 ==>
                   (Contains(q, Addr(V4, v)) <==> Contains(p, Addr(V6, MAPPED_FIRST + v)))
            else Addresses(q) == Addresses(p)
  {
    hide ShiftRight, ShiftLeft, Masked;
    MappedMeans(p.value);
    MaskedIsMasked(p);
    if p.family == V6 && MAPPED_FIRST <= p.value <= MAPPED_LAST {
      var low := p.value - MAPPED_FIRST;
      ShortValue(low);
      assert p.value % 0x1_0000_0000 == low;
      var q := Prefix(V4, low, p.bits - 96);
      MaskedIsMasked(q);
      MaskedIsLeast(q);
      forall v: nat | v < 0x1_0000_0000
        ensures Contains(Masked(q), Addr(V4, v)) <==> Contains(p, Addr(V6, MAPPED_FIRST + v))
      {
        ShortValue(v);
        MappedBlocks(v, low, 128 - p.bits);
        assert Addr(V4, v) in Addresses(Masked(q)) <==> Addr(V4, v) in Addresses(q);
      }
    }
  }
}
