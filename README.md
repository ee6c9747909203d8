# AArch32 translation-table back end: a Dafny model

This project models the AArch32 back end of the Trusted Firmware-A translation-table library (`xlat_tables_v2`).
It covers two parts:

- The capability queries that the architecture-independent table builder consults: the supported granule, the largest granule, the largest physical address, the execute-never descriptor bits, the current exception level, and whether the MMU is on.
- `setup_mmu_cfg`. It turns a finished table's base address, the flag word and `max_va` into the MAIR0, TTBCR and TTBR0 values of the PL1&0 stage 1 regime. It stores them in three slots of the caller's configuration array, which the enabling routine later writes to the registers.

Everything uses the Long-descriptor translation table format.

Files:

- `bits.dfy` (module `Bits`): the firmware's `IS_POWER_OF_TWO` test and the compiler's `__builtin_ctzll`, over 64-bit words. `Ctz` is defined by a scan for the lowest set bit. A separate inductive lemma proves that the scan finds that bit.
- `xlat_defs.dfy` (module `XlatDefs`): the header constants, with their architectural values, and readers for the fields of the registers. The TTBCR fields follow section B4.1.153 of the Arm Architecture Reference Manual ARMv7-A/R (DDI 0406C), Long-descriptor format: EAE bit 31, EPD1 bit 23, A1 bit 22, T1SZ [18:16], SH0 [13:12], ORGN0 [11:10], IRGN0 [9:8], EPD0 bit 7, T0SZ [2:0]. `CHECK_VIRT_ADDR_SPACE_SIZE` becomes the predicate `CheckVirtAddrSpaceSize`: a power of two between 2^25 (T0SZ 7) and 2^32 (T0SZ 0).
- `xlat_tables_arch.dfy` (module `XlatTablesArch`):
  - The queries are functions.
  - The three register values are specified by the functions `MairImage`, `TtbcrImage` and `Ttbr0Image`. Their contracts give each register field by field.
  - `SetupMmuCfg` is a method over `array<bv64>`. It builds the values with `|=` steps, as the C code does, and is proved to store exactly those three images and nothing else.

Machine integers are bit-vectors: `bv32` for `unsigned int`, `uintptr_t` and `size_t`, and `bv64` for `uint64_t` and `unsigned long long`. The compile-time switch `ARM_ARCH_AT_LEAST(8, 2)` becomes the boolean parameter `armArchAtLeast82`. The SCTLR read in `is_mmu_enabled_ctx` becomes a parameter holding the register value.

`TTBR_CNP_BIT` is bit 0 of the 64-bit TTBR0, as the architecture defines it. It is not a high bit of the register.

## Model

| member | source | states |
|---|---|---|
| `XlatTablesArch.IsGranuleSizeSupported` | lib/xlat_tables_v2/aarch32/xlat_tables_arch.c:24-31 | The result is 0 or 1, and it is 1 exactly when the size is 4 KiB. |
| `XlatTablesArch.MaxSupportedGranuleSize` | lib/xlat_tables_v2/aarch32/xlat_tables_arch.c:33-36 | The largest granule is 4096 bytes, and the granule query accepts it. |
| `XlatTablesArch.MaxSupportedPa` | lib/xlat_tables_v2/aarch32/xlat_tables_arch.c:39-43 | The result is the top of a 40-bit space: it fits in 40 bits, and adding one gives 2^40. |
| `XlatTablesArch.IsMmuEnabled` | lib/xlat_tables_v2/aarch32/xlat_tables_arch.c:46-49 | The result is 0 or 1, and it is 1 exactly when SCTLR.M (bit 0) is set in the given SCTLR value. |
| `XlatTablesArch.RegimeXnDesc` | lib/xlat_tables_v2/aarch32/xlat_tables_arch.c:51-54 | For every regime, the descriptor bits are the single bit 54, the XN bit of a stage 1 block or page descriptor. |
| `XlatTablesArch.CurrentEl` | lib/xlat_tables_v2/aarch32/xlat_tables_arch.c:93-104 | The current exception level is always reported as 1. |
| `XlatTablesArch.MairAttrReadBack` | lib/xlat_tables_v2/aarch32/xlat_tables_arch.c:120-124 | An attribute byte placed at an index reads back at that index, and every other index reads 0. |
| `XlatTablesArch.MairImage` | lib/xlat_tables_v2/aarch32/xlat_tables_arch.c:119-124 | Index 1 reads back Device-nGnRE, index 0 the write-back attribute and index 2 the non-cacheable attribute. Attr3 and the upper 32 bits are 0. |
| `XlatTablesArch.T0szValue` | lib/xlat_tables_v2/aarch32/xlat_tables_arch.c:145-156 | When `max_va` is `UINT32_MAX`, no T0SZ is added (the value is 0). Otherwise the value lies in [1, 32], so the trailing-zero count is below 32. |
| `XlatTablesArch.T0szOfPowerOfTwoSpace` | lib/xlat_tables_v2/aarch32/xlat_tables_arch.c:146-153 | When `max_va + 1` is 2^k with k in [0, 31], T0SZ is 32 - k. |
| `XlatTablesArch.T0szEncodesSpaceSize` | lib/xlat_tables_v2/aarch32/xlat_tables_arch.c:146-153 | When `max_va + 1` is a power of two, the TTBR0 range 2^(32 - T0SZ) is exactly `max_va + 1` bytes. |
| `XlatTablesArch.TtbcrImage` | lib/xlat_tables_v2/aarch32/xlat_tables_arch.c:126-170 | EAE and EPD1 are set and EPD0 is clear, for every input. Bits [6:0] hold the T0SZ value. SH0/ORGN0/IRGN0 are 0/0/0 when `XLAT_TABLE_NC` is set and 3/1/1 when it is not. A1, T1SZ and the TTBR1 walk attributes are 0, and no other bit is set. |
| `XlatTablesArch.T0szFitsField` | lib/xlat_tables_v2/aarch32/xlat_tables_arch.c:145-156 | When `max_va` passes `CHECK_VIRT_ADDR_SPACE_SIZE` (or is `UINT32_MAX`), T0SZ is at most 7, the 3-bit T0SZ field of TTBCR holds it, and the UNK/SBZP bits [6:3] are clear. |
| `XlatTablesArch.PowerOfTwoAloneOverflowsT0sz` | lib/xlat_tables_v2/aarch32/xlat_tables_arch.c:148-155 | A 64 KiB space is a power of two but fails the range check. It would give T0SZ 16, which leaves the T0SZ field 0 and sets reserved bit 4. So the range part of the assertion is needed. |
| `XlatTablesArch.WalkAttrsExclusive` | lib/xlat_tables_v2/aarch32/xlat_tables_arch.c:162-170 | A TTBCR built with `XLAT_TABLE_NC` and one built without it differ in each of SH0, ORGN0 and IRGN0, whatever the address spaces. |
| `XlatTablesArch.Ttbr0Image` | lib/xlat_tables_v2/aarch32/xlat_tables_arch.c:172-181 | TTBR0 is the table address zero-extended to 64 bits. Below Armv8.2 it is exactly the address. On Armv8.2 and later, CnP is also set and the other bits are still the address. |
| `XlatTablesArch.Ttbr0RoundTrip` | lib/xlat_tables_v2/aarch32/xlat_tables_arch.c:173-181 | For an 8-byte-aligned table, the table address and the CnP choice can both be read back from TTBR0. |
| `XlatTablesArch.FullSpaceWriteBackExample` | lib/xlat_tables_v2/aarch32/xlat_tables_arch.c:145-181 | With `max_va` 0xFFFFFFFF, no flags and a pre-8.2 core: T0SZ is 0, the walks are inner-shareable write-back, and TTBR0 for a table at 0x80000000 is 0x80000000. |
| `XlatTablesArch.OneGiBSpaceExample` | lib/xlat_tables_v2/aarch32/xlat_tables_arch.c:145-156 | With `max_va` 0x3FFFFFFF (a 1 GiB space), the T0SZ field is 2. |
| `XlatTablesArch.SetupMmuCfg` | lib/xlat_tables_v2/aarch32/xlat_tables_arch.c:110-187 | Under the `CHECK_VIRT_ADDR_SPACE_SIZE` assertion as a precondition, the method writes the MAIR0 image to `params[MMU_CFG_MAIR]`, the zero-extended TTBCR image to `params[MMU_CFG_TCR]` (upper 32 bits 0) and the TTBR0 image to `params[MMU_CFG_TTBR0]`. Every other element of `params` is unchanged. |
| `Bits.Ctz` | lib/xlat_tables_v2/aarch32/xlat_tables_arch.c:149-153 | For a non-zero word, `__builtin_ctzll` returns the index (below 64) of the lowest set bit: that bit is set and every bit below it is clear. |
| `Bits.CtzFromFindsLowestSetBit` | lib/xlat_tables_v2/aarch32/xlat_tables_arch.c:149-153 | Scanning a non-zero word upwards from a point below its lowest set bit stops at that bit. |
| `Bits.CtzOfNarrowWord` | lib/xlat_tables_v2/aarch32/xlat_tables_arch.c:149-153 | For a non-zero `uintptr_t` value zero-extended to 64 bits, the trailing-zero count is below 32. So `32 - ctz` lies in [1, 32]. |
| `Bits.CtzOfPowerOfTwo` | lib/xlat_tables_v2/aarch32/xlat_tables_arch.c:149-153 | The trailing-zero count of 2^k is k. |
| `Bits.PowerOfTwoIsTwoToCtz` | lib/xlat_tables_v2/aarch32/xlat_tables_arch.c:148-153 | A non-zero value passing `IS_POWER_OF_TWO` equals 2 raised to its trailing-zero count. |

## Left out

- `xlat_arch_tlbi_va` and `xlat_arch_tlbi_va_sync` are not modelled. They consist only of barrier, TLB and branch-predictor maintenance instructions. Their purpose is memory ordering between processing elements, which a sequential model cannot express.
- The `assert(IS_IN_SECURE())` of `setup_mmu_cfg` is not modelled. It depends on the processor's security state, which is not part of the model.
- The `#error` guard for Armv7 targets without large physical address extensions is not modelled. It is build configuration, not behaviour.
- `IsMmuEnabled` takes the SCTLR value instead of reading the register. It also omits the unused translation-context argument.
- The header files that define the constants are not part of this model. `XlatDefs` declares each constant with its architectural value, and the model relies on those values.
- `SetupMmuCfg` accepts `max_pa` and the regime but does not use them, as on this architecture. Its TTBCR is computed in 32-bit words. The C code's `int t0sz` cannot overflow there, because it lies in [1, 32].
- `MaxSupportedPa` is always available in the model. In the source it is compiled only when `ENABLE_ASSERTIONS` is set, because only assertions in the table builder call it.
