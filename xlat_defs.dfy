/** The header constants the AArch32 translation-table backend uses, with
    their architectural values, and readers for the fields of the registers
    it programs. Register layouts follow the Arm Architecture Reference
    Manual ARMv7-A/R (DDI 0406C), section B4.1.153 for TTBCR in the
    Long-descriptor format and the MAIR0 description of the same manual. */
module XlatDefs {
  import opened Bits

  /** The largest value of a 32-bit unsigned integer (uintptr_t on AArch32). */
  const UINT32_MAX: bv32 := 0xFFFF_FFFF

  /** The only translation granule of the Long-descriptor format. */
  const PAGE_SIZE_4KB: bv32 := 1 << 12

  // Memory-attribute encodings (one byte each in MAIR0/MAIR1).
  const MAIR_DEV_NGNRE: bv64 := 0x4
  const MAIR_NORM_WB_NTR_RWA: bv64 := 0xF
  const MAIR_NORM_NC: bv64 := 0x4
  const MAIR_NORM_OUTER_SHIFT: bv64 := 4

  /** A Normal-memory attribute byte: inner policy low nibble, outer policy high nibble. */
  function MakeMairNormalMemory(inner: bv64, outer: bv64): (attr: bv64)
    requires inner <= 0xF && outer <= 0xF
    ensures attr <= 0xFF
    ensures attr & 0xF == inner && attr >> MAIR_NORM_OUTER_SHIFT == outer
  {
    inner | (outer << MAIR_NORM_OUTER_SHIFT)
  }

  /** Device-nGnRE. */
  const ATTR_DEVICE: bv64 := MAIR_DEV_NGNRE
  /** Normal, inner and outer write-back non-transient, read/write-allocate. */
  const ATTR_IWBWA_OWBWA_NTR: bv64 := MakeMairNormalMemory(MAIR_NORM_WB_NTR_RWA, MAIR_NORM_WB_NTR_RWA)
  /** Normal, inner and outer non-cacheable. */
  const ATTR_NON_CACHEABLE: bv64 := MakeMairNormalMemory(MAIR_NORM_NC, MAIR_NORM_NC)

  // Indices of the attributes in MAIR0: the contract with the table builder,
  // whose descriptors select memory types by these indices.
  const ATTR_IWBWA_OWBWA_NTR_INDEX: bv64 := 0
  const ATTR_DEVICE_INDEX: bv64 := 1
  const ATTR_NON_CACHEABLE_INDEX: bv64 := 2

  /** MAIR0_ATTR_SET: the attribute byte placed at its index (Attr<index> is bits [8*index+7:8*index]). */
  function MairAttrSet(attr: bv64, index: bv64): bv64
    requires index < 8
  {
    attr << (index << 3)
  }

  /** Reads back the attribute byte at an index of a MAIR word. */
  function MairAttr(mair: bv64, index: bv64): bv64
    requires index < 8
  {
    (mair >> (index << 3)) & 0xFF
  }

  // TTBCR, Long-descriptor format (TTBCR.EAE == 1).
  const TTBCR_EAE_BIT: bv32 := 1 << 31
  const TTBCR_EPD1_BIT: bv32 := 1 << 23
  const TTBCR_SH0_NON_SHAREABLE: bv32 := 0x0 << 12
  const TTBCR_SH0_INNER_SHAREABLE: bv32 := 0x3 << 12
  const TTBCR_RGN0_OUTER_NC: bv32 := 0x0 << 10
  const TTBCR_RGN0_OUTER_WBA: bv32 := 0x1 << 10
  const TTBCR_RGN0_INNER_NC: bv32 := 0x0 << 8
  const TTBCR_RGN0_INNER_WBA: bv32 := 0x1 << 8
  const TTBCR_T0SZ_MASK: bv32 := 0x7
  const TTBCR_TXSZ_MAX: bv64 := 7

  /** The bits of the word that hold the T0SZ field together with the
      UNK/SBZP bits [6:3] just above it: everything a T0SZ value up to 32 can touch. */
  const TTBCR_T0SZ_AND_SBZP_MASK: bv32 := 0x7F

  /** TTBCR.EAE, bit 31: the Long-descriptor format is in use. */
  predicate TtbcrEae(ttbcr: bv32) { ttbcr & TTBCR_EAE_BIT != 0 }
  /** TTBCR.EPD1, bit 23: no table walk on a TLB miss for TTBR1. */
  predicate TtbcrEpd1(ttbcr: bv32) { ttbcr & TTBCR_EPD1_BIT != 0 }
  /** TTBCR.EPD0, bit 7: no table walk on a TLB miss for TTBR0. */
  predicate TtbcrEpd0(ttbcr: bv32) { ttbcr & (1 << 7) != 0 }
  /** TTBCR.A1, bit 22: the ASID is taken from TTBR1. */
  predicate TtbcrA1(ttbcr: bv32) { ttbcr & (1 << 22) != 0 }
  /** TTBCR.T0SZ, bits [2:0]: the TTBR0 input address range is 2^(32-T0SZ). */
  function TtbcrT0sz(ttbcr: bv32): bv32 { ttbcr & TTBCR_T0SZ_MASK }
  /** TTBCR.T1SZ, bits [18:16]. */
  function TtbcrT1sz(ttbcr: bv32): bv32 { (ttbcr >> 16) & 0x7 }
  /** TTBCR.SH0, bits [13:12]: shareability of TTBR0 table walks (0 non-shareable, 3 inner shareable). */
  function TtbcrSh0(ttbcr: bv32): bv32 { (ttbcr >> 12) & 0x3 }
  /** TTBCR.ORGN0, bits [11:10]: outer cacheability of TTBR0 table walks (0 non-cacheable, 1 write-back write-allocate). */
  function TtbcrOrgn0(ttbcr: bv32): bv32 { (ttbcr >> 10) & 0x3 }
  /** TTBCR.IRGN0, bits [9:8]: inner cacheability of TTBR0 table walks (0 non-cacheable, 1 write-back write-allocate). */
  function TtbcrIrgn0(ttbcr: bv32): bv32 { (ttbcr >> 8) & 0x3 }
  /** TTBCR.SH1, ORGN1 and IRGN1, bits [29:24]: the TTBR1 walk attributes. */
  function TtbcrWalkAttrs1(ttbcr: bv32): bv32 { (ttbcr >> 24) & 0x3F }

  /** Smallest and largest virtual address space TTBR0 can translate:
      2^(32 - 7) and 2^(32 - 0) bytes. */
  const MIN_VIRT_ADDR_SPACE_SIZE: bv64 := 1 << (32 - TTBCR_TXSZ_MAX)
  const MAX_VIRT_ADDR_SPACE_SIZE: bv64 := 1 << 32

  /** CHECK_VIRT_ADDR_SPACE_SIZE: a size the TTBR0 range can be limited to. */
  predicate CheckVirtAddrSpaceSize(size: bv64)
  {
    MIN_VIRT_ADDR_SPACE_SIZE <= size <= MAX_VIRT_ADDR_SPACE_SIZE && IsPowerOfTwo(size)
  }

  /** TTBR0.CnP, bit 0 of the 64-bit TTBR0: the table is common to all PEs. */
  const TTBR_CNP_BIT: bv64 := 0x1

  // Upper attributes of a Long-descriptor block or page descriptor.
  const XN: bv64 := 1 << 2

  /** UPPER_ATTRS: the three upper-attribute flags (XN, PXN, Contiguous) placed at bits [54:52]. */
  function UpperAttrs(x: bv64): bv64
  {
    (x & 0x7) << 52
  }

  /** SCTLR.M, bit 0: the MMU is enabled for the PL1&0 stage 1 regime. */
  const SCTLR_M_BIT: bv32 := 1 << 0

  /** XLAT_TABLE_NC: the translation tables live in non-cacheable memory. */
  const XLAT_TABLE_NC: bv32 := 1 << 1

  // Slots of the MMU configuration array handed to the enabling routine.
  const MMU_CFG_MAIR: nat := 0
  const MMU_CFG_TCR: nat := 1
  const MMU_CFG_TTBR0: nat := 2
  const MMU_CFG_PARAM_MAX: nat := 3
}
