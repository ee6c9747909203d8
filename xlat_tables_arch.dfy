/** The AArch32 back end of the translation-table library: the capability
    queries the table builder consults, and setup_mmu_cfg, which turns a
    finished table and its configuration into the MAIR0, TTBCR and TTBR0
    values that the enabling routine writes to the PL1&0 stage 1 registers.
    The Long-descriptor format is used throughout. */
module XlatTablesArch {
  import opened Bits
  import opened XlatDefs

  /** xlat_arch_is_granule_size_supported: 1 for the 4 KiB granule, 0 for
      every other size (size_t is 32 bits wide on AArch32). */
  function IsGranuleSizeSupported(size: bv32): (supported: int)
    ensures supported == 0 || supported == 1
    ensures supported == 1 <==> size == PAGE_SIZE_4KB
  {
    if size == PAGE_SIZE_4KB then 1 else 0
  }

  /** xlat_arch_get_max_supported_granule_size: 4 KiB, which is itself supported. */
  function MaxSupportedGranuleSize(): (size: bv32)
    ensures size == 4096
    ensures IsGranuleSizeSupported(size) == 1
  {
    PAGE_SIZE_4KB
  }

  /** xlat_arch_get_max_supported_pa: the highest address of the 40-bit
      physical address space of the Long-descriptor format. */
  function MaxSupportedPa(): (pa: bv64)
    ensures pa >> 40 == 0
    ensures pa + 1 == 1 << 40
  {
    (1 << 40) - 1
  }

  /** is_mmu_enabled_ctx, on the SCTLR value the hardware would return:
      1 when SCTLR.M is set, 0 otherwise. */
  function IsMmuEnabled(sctlr: bv32): (enabled: int)
    ensures enabled == 0 || enabled == 1
    ensures enabled == 1 <==> sctlr & 1 != 0
  {
    if sctlr & SCTLR_M_BIT != 0 then 1 else 0
  }

  /** xlat_arch_regime_get_xn_desc: the execute-never bit of a stage 1
      Long-descriptor block or page descriptor, bit 54, for every regime. */
  function RegimeXnDesc(xlatRegime: int): (desc: bv64)
    ensures desc == 1 << 54
  {
    UpperAttrs(XN)
  }

  /** xlat_arch_current_el: the secure PL1 modes run the PL1&0 regime, reported as EL1. */
  function CurrentEl(): (el: bv32)
    ensures el == 1
  {
    1
  }

  /** The attribute byte that MAIR_ATTR_SET places at an index reads back
      at that index, and every other index reads 0. */
  lemma MairAttrReadBack(attr: bv64, index: bv64, other: bv64)
    requires attr <= 0xFF && index < 8 && other < 8
    ensures MairAttr(MairAttrSet(attr, index), other) == if other == index then attr else 0
  {
  }

  /** The MAIR0 value of setup_mmu_cfg: each of the three attributes at its
      own index; Attr3 and the upper word are empty. */
  function MairImage(): (mair: bv64)
    ensures MairAttr(mair, ATTR_DEVICE_INDEX) == ATTR_DEVICE
    ensures MairAttr(mair, ATTR_IWBWA_OWBWA_NTR_INDEX) == ATTR_IWBWA_OWBWA_NTR
    ensures MairAttr(mair, ATTR_NON_CACHEABLE_INDEX) == ATTR_NON_CACHEABLE
    ensures MairAttr(mair, 3) == 0 && mair >> 32 == 0
  {
    MairAttrSet(ATTR_DEVICE, ATTR_DEVICE_INDEX)
      | MairAttrSet(ATTR_IWBWA_OWBWA_NTR, ATTR_IWBWA_OWBWA_NTR_INDEX)
      | MairAttrSet(ATTR_NON_CACHEABLE, ATTR_NON_CACHEABLE_INDEX)
  }

  /** The T0SZ value setup_mmu_cfg ORs into TTBCR: nothing for the full
      32-bit space, otherwise 32 minus the trailing-zero count of the size
      max_va + 1 of the space, which is never 0 there. */
  function T0szValue(maxVa: bv32): (t0sz: bv32)
    ensures maxVa == UINT32_MAX ==> t0sz == 0
    ensures maxVa != UINT32_MAX ==> 1 <= t0sz <= 32
  {
    if maxVa == UINT32_MAX then 0
    else
      var size := (maxVa + 1) as bv64;
      CtzOfNarrowWord(size);
      (32 - Ctz(size)) as bv32
  }

  /** For a space of 2^k bytes (k in [0, 31]) the T0SZ value is 32 - k. */
  lemma T0szOfPowerOfTwoSpace(maxVa: bv32, k: bv64)
    requires k < 32 && (maxVa + 1) as bv64 == 1 << k
    ensures T0szValue(maxVa) as bv64 == 32 - k
  {
    CtzOfPowerOfTwo(k);
  }

  /** T0SZ encodes the size back: when max_va + 1 is a power of two, the
      TTBR0 range 2^(32 - T0SZ) is exactly max_va + 1 bytes. */
  lemma T0szEncodesSpaceSize(maxVa: bv32)
    requires maxVa != UINT32_MAX && IsPowerOfTwo((maxVa + 1) as bv64)
    ensures (maxVa + 1) as bv64 == 1 << (32 - T0szValue(maxVa) as bv64)
  {
    PowerOfTwoIsTwoToCtz((maxVa + 1) as bv64);
  }

  /** The walk attributes for TTBR0 chosen by the flags: inner and outer
      non-cacheable, non-shareable for tables in non-cacheable memory;
      inner and outer write-back write-allocate, inner shareable otherwise. */
  function WalkAttrs0(flags: bv32): bv32
  {
    if flags & XLAT_TABLE_NC != 0 then
      TTBCR_SH0_NON_SHAREABLE | TTBCR_RGN0_OUTER_NC | TTBCR_RGN0_INNER_NC
    else
      TTBCR_SH0_INNER_SHAREABLE | TTBCR_RGN0_OUTER_WBA | TTBCR_RGN0_INNER_WBA
  }

  /** The TTBCR value of setup_mmu_cfg, field by field: Long-descriptor
      format, TTBR1 walks disabled and TTBR0 walks enabled, the T0SZ value
      in the low bits, the TTBR0 walk attributes chosen by XLAT_TABLE_NC,
      and nothing else set. */
  function TtbcrImage(flags: bv32, maxVa: bv32): (ttbcr: bv32)
    ensures TtbcrEae(ttbcr) && TtbcrEpd1(ttbcr) && !TtbcrEpd0(ttbcr)
    ensures ttbcr & TTBCR_T0SZ_AND_SBZP_MASK == T0szValue(maxVa)
    ensures flags & XLAT_TABLE_NC != 0 ==>
      TtbcrSh0(ttbcr) == 0 && TtbcrOrgn0(ttbcr) == 0 && TtbcrIrgn0(ttbcr) == 0
    ensures flags & XLAT_TABLE_NC == 0 ==>
      TtbcrSh0(ttbcr) == 3 && TtbcrOrgn0(ttbcr) == 1 && TtbcrIrgn0(ttbcr) == 1
    ensures !TtbcrA1(ttbcr) && TtbcrT1sz(ttbcr) == 0 && TtbcrWalkAttrs1(ttbcr) == 0
    ensures ttbcr & !(TTBCR_EAE_BIT | TTBCR_EPD1_BIT | 0x3F00 | TTBCR_T0SZ_AND_SBZP_MASK) == 0
  {
    TTBCR_EAE_BIT | TTBCR_EPD1_BIT | T0szValue(maxVa) | WalkAttrs0(flags)
  }

  /** When max_va passes CHECK_VIRT_ADDR_SPACE_SIZE (or is the full 32-bit
      space), T0SZ fits the 3-bit T0SZ field and the UNK/SBZP bits [6:3]
      stay clear. */
  lemma T0szFitsField(flags: bv32, maxVa: bv32)
    requires maxVa != UINT32_MAX ==> CheckVirtAddrSpaceSize((maxVa + 1) as bv64)
    ensures T0szValue(maxVa) as bv64 <= TTBCR_TXSZ_MAX
    ensures TtbcrT0sz(TtbcrImage(flags, maxVa)) == T0szValue(maxVa)
    ensures TtbcrImage(flags, maxVa) & 0x78 == 0
  {
    if maxVa != UINT32_MAX {
      T0szEncodesSpaceSize(maxVa);
    }
  }

  /** Without the range part of CHECK_VIRT_ADDR_SPACE_SIZE a power of two is
      not enough: a 64 KiB space gives T0SZ 16, which leaves the T0SZ field
      0 (a 4 GiB range) and sets the UNK/SBZP bit 4. */
  lemma PowerOfTwoAloneOverflowsT0sz(flags: bv32)
    ensures IsPowerOfTwo((0xFFFF as bv32 + 1) as bv64)
    ensures !CheckVirtAddrSpaceSize((0xFFFF as bv32 + 1) as bv64)
    ensures T0szValue(0xFFFF) == 16
    ensures TtbcrT0sz(TtbcrImage(flags, 0xFFFF)) == 0
    ensures TtbcrImage(flags, 0xFFFF) & 0x10 != 0
  {
    T0szOfPowerOfTwoSpace(0xFFFF, 16);
  }

  /** The two walk-attribute encodings are exclusive: every one of SH0,
      ORGN0 and IRGN0 differs between a TTBCR built with XLAT_TABLE_NC and
      one built without it, whatever the address spaces. */
  lemma WalkAttrsExclusive(ncFlags: bv32, wbFlags: bv32, maxVa1: bv32, maxVa2: bv32)
    requires ncFlags & XLAT_TABLE_NC != 0 && wbFlags & XLAT_TABLE_NC == 0
    ensures TtbcrSh0(TtbcrImage(ncFlags, maxVa1)) != TtbcrSh0(TtbcrImage(wbFlags, maxVa2))
    ensures TtbcrOrgn0(TtbcrImage(ncFlags, maxVa1)) != TtbcrOrgn0(TtbcrImage(wbFlags, maxVa2))
    ensures TtbcrIrgn0(TtbcrImage(ncFlags, maxVa1)) != TtbcrIrgn0(TtbcrImage(wbFlags, maxVa2))
  {
  }

  /** The TTBR0 value of setup_mmu_cfg: the table address, zero-extended,
      with CnP set on Armv8.2 and later. */
  function Ttbr0Image(baseTable: bv32, armArchAtLeast82: bool): (ttbr0: bv64)
    ensures ttbr0 >> 32 == 0
    ensures ttbr0 & !TTBR_CNP_BIT == (baseTable as bv64) & !TTBR_CNP_BIT
    ensures armArchAtLeast82 ==> ttbr0 & TTBR_CNP_BIT != 0
    ensures !armArchAtLeast82 ==> ttbr0 == baseTable as bv64
  {
    var ttbr0 := baseTable as bv64;
    if armArchAtLeast82 then ttbr0 | TTBR_CNP_BIT else ttbr0
  }

  /** For a table at an aligned address (base_table points to 64-bit
      entries), TTBR0 gives back both the address and whether CnP was set. */
  lemma Ttbr0RoundTrip(baseTable: bv32, armArchAtLeast82: bool)
    requires baseTable & 0x7 == 0
    ensures (Ttbr0Image(baseTable, armArchAtLeast82) & !TTBR_CNP_BIT) as bv32 == baseTable
    ensures (Ttbr0Image(baseTable, armArchAtLeast82) & TTBR_CNP_BIT != 0) == armArchAtLeast82
  {
  }

  /** A 4 GiB space with cacheable tables on a pre-8.2 core: T0SZ 0,
      write-back inner-shareable walks, TTBR0 the bare table address. */
  lemma FullSpaceWriteBackExample()
    ensures TtbcrT0sz(TtbcrImage(0, 0xFFFF_FFFF)) == 0
    ensures TtbcrSh0(TtbcrImage(0, 0xFFFF_FFFF)) == 3
    ensures TtbcrOrgn0(TtbcrImage(0, 0xFFFF_FFFF)) == 1 && TtbcrIrgn0(TtbcrImage(0, 0xFFFF_FFFF)) == 1
    ensures Ttbr0Image(0x8000_0000, false) == 0x8000_0000
  {
  }

  /** A 1 GiB space (max_va 0x3FFFFFFF) gives T0SZ 2. */
  lemma OneGiBSpaceExample(flags: bv32)
    ensures TtbcrT0sz(TtbcrImage(flags, 0x3FFF_FFFF)) == 2
  {
    T0szOfPowerOfTwoSpace(0x3FFF_FFFF, 30);
  }

  /** setup_mmu_cfg: builds MAIR0, TTBCR and TTBR0 step by step and stores
      them in their three slots of params, leaving every other slot alone.
      The Armv8.2 build switch is the parameter armArchAtLeast82; max_pa and
      the regime do not affect the result on this architecture. */
  method SetupMmuCfg(params: array<bv64>, flags: bv32, baseTable: bv32, maxPa: bv64,
                     maxVa: bv32, xlatRegime: int, armArchAtLeast82: bool)
    requires MMU_CFG_PARAM_MAX <= params.Length
    requires maxVa != UINT32_MAX ==> CheckVirtAddrSpaceSize((maxVa + 1) as bv64)
    modifies params
    ensures params[MMU_CFG_MAIR] == MairImage()
    ensures params[MMU_CFG_TCR] == TtbcrImage(flags, maxVa) as bv64
    ensures params[MMU_CFG_TCR] >> 32 == 0
    ensures params[MMU_CFG_TTBR0] == Ttbr0Image(baseTable, armArchAtLeast82)
    ensures forall i :: MMU_CFG_PARAM_MAX <= i < params.Length ==> params[i] == old(params[i])
  {
    var mair: bv64 := MairAttrSet(ATTR_DEVICE, ATTR_DEVICE_INDEX);
    mair := mair | MairAttrSet(ATTR_IWBWA_OWBWA_NTR, ATTR_IWBWA_OWBWA_NTR_INDEX);
    mair := mair | MairAttrSet(ATTR_NON_CACHEABLE, ATTR_NON_CACHEABLE_INDEX);

    var ttbcr: bv32 := TTBCR_EAE_BIT;
    ttbcr := ttbcr | TTBCR_EPD1_BIT;
    if maxVa != UINT32_MAX {
      var virtualAddrSpaceSize: bv32 := maxVa + 1;
      CtzOfNarrowWord(virtualAddrSpaceSize as bv64);
      var t0sz: bv64 := 32 - Ctz(virtualAddrSpaceSize as bv64);
      ttbcr := ttbcr | (t0sz as bv32);
    }
    if flags & XLAT_TABLE_NC != 0 {
      ttbcr := ttbcr | TTBCR_SH0_NON_SHAREABLE | TTBCR_RGN0_OUTER_NC | TTBCR_RGN0_INNER_NC;
    } else {
      ttbcr := ttbcr | TTBCR_SH0_INNER_SHAREABLE | TTBCR_RGN0_OUTER_WBA | TTBCR_RGN0_INNER_WBA;
    }

    var ttbr0: bv64 := baseTable as bv64;
    if armArchAtLeast82 {
      ttbr0 := ttbr0 | TTBR_CNP_BIT;
    }

    params[MMU_CFG_MAIR] := mair;
    params[MMU_CFG_TCR] := ttbcr as bv64;
    params[MMU_CFG_TTBR0] := ttbr0;
  }
}
