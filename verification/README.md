# PCWU register table

A model of the register table of the Hewalex PCWU heat pump's executive
module (MG-426-P01), as the `PCWU` device class declares it: the address
limit `REG_MAX_ADR` (536) and the register-count limit `REG_MAX_NUM` (226), the boundary
`REG_CONFIG_START` (302) between status and configuration registers, the
31 register definitions (type tag, name or flag-slot list, option list), and
the `enable`/`disable` convenience writes to register 304.

The project has three modules:

- `Registers` (`registers.dfy`): the register schema. It holds the closed set of
  type tags (`date`, `time`, `te10`, `bool`, `word`, `mask`, `tprg`), a register
  definition, the names a definition introduces, option validation as list
  membership, and facts about ascending option lists.
- `FlagMask` (`flag_mask.dfy`): per-slot decoding and encoding of a mask
  register. Slot i of the flag list is bit i of the word, bit 0 least
  significant. An unused (`None`) slot never decodes to a name and always
  encodes to 0.
- `Pcwu` (`pcwu.dfy`): the table itself, copied entry by entry. It also holds
  lookup by address and by name, `IsConfig`, `ValidWrite`, `Enable`/`Disable`,
  and the facts the table promises.

Temperatures (`te10`) stay integer tenths of a degree throughout. The option
list of register 308 (TapWaterTemp) is modelled exactly as written. It holds
112 and not 120, so 11.2 °C validates and 12.0 °C does not.
`TapWaterTempValidation` states both.

The class declares the table but neither looks registers up nor checks
writes; that code lives in `base.py`, which is not part of this model. So
three points are this model's own choices:

- Register 196 keeps the 13 slots the table lists, five of them named,
  and its flag names resolve to address 196 under name lookup.
- `ValidWrite` checks option lists only, so booleans without an option
  list (194, 516) accept any value under it.
- Name lookup searches the table in its listed order rather than a
  precomputed index. `UniqueNames` makes the order irrelevant.

## Model

| member | source | states |
|---|---|---|
| `Registers.ParseType` | hewalex/hewalex_geco/devices/pcwu.py:32-98 | a string parses to a register type only if it is that type's tag, and every other string is rejected |
| `Registers.TypeTagRoundTrip` | hewalex/hewalex_geco/devices/pcwu.py:32-98 | every type's tag parses back to that type |
| `Pcwu.LookupByAddress` | hewalex/hewalex_geco/devices/pcwu.py:29-104 | an address resolves to its definition exactly when the table lists it, otherwise to UnknownRegister |
| `Pcwu.FindName` | hewalex/hewalex_geco/devices/pcwu.py:29-104 | a search of the table's addresses finds the first register in their order that introduces the name, or establishes that none of them does |
| `Pcwu.LookupByName` | hewalex/hewalex_geco/devices/pcwu.py:29-104 | a name resolves to a register that introduces it (own name or mask flag name), or to UnknownRegister when no register does |
| `Pcwu.NameLookupInverse` | hewalex/hewalex_geco/devices/pcwu.py:32-98 | every name a register introduces looks up to that very register |
| `Pcwu.IsConfig` | hewalex/hewalex_geco/devices/pcwu.py:13-98 | of the table's registers, exactly 302-338 and 516 are configuration registers and exactly 120-202 status registers |
| `Pcwu.ValidWrite` | hewalex/hewalex_geco/devices/pcwu.py:62-98 | a write never validates on an unknown register, always on a register without options, and on one with options exactly when the value is listed |
| `Pcwu.Enable` | hewalex/hewalex_geco/devices/pcwu.py:109-110 | enable writes 1, a value the register accepts, to the register named HeatPumpEnabled |
| `Pcwu.Disable` | hewalex/hewalex_geco/devices/pcwu.py:106-107 | disable writes 0, a value the register accepts, to the register named HeatPumpEnabled |
| `Pcwu.StatusFlags` | hewalex/hewalex_geco/devices/pcwu.py:44-58 | a status word reports only the five flag names of register 196, each exactly when its bit (0, 2, 5, 11, 12) is set |
| `Pcwu.TableOrder` | hewalex/hewalex_geco/devices/pcwu.py:29-104 | the table lists its addresses once each, in ascending order |
| `Pcwu.AddressBounds` | hewalex/hewalex_geco/devices/pcwu.py:11-104 | every populated address is at most REG_MAX_ADR (536) |
| `Pcwu.TableSize` | hewalex/hewalex_geco/devices/pcwu.py:11-104 | the table populates 31 addresses, within REG_MAX_NUM (226) |
| `Pcwu.StatusConfigSplit` | hewalex/hewalex_geco/devices/pcwu.py:13-98 | below REG_CONFIG_START are exactly the status registers 120-202, from it up exactly the configuration registers 302-338 and 516; 202 is status, 304 configuration |
| `Pcwu.OptionsOnlyOnConfig` | hewalex/hewalex_geco/devices/pcwu.py:62-98 | only configuration registers declare option lists |
| `Pcwu.TapWaterTempOptionsAscending` | hewalex/hewalex_geco/devices/pcwu.py:66-71 | the tap-water temperature list holds 51 options, five lines of ten and then 600, ascending strictly across the lines |
| `Pcwu.AmbientMinTempOptionsAscending` | hewalex/hewalex_geco/devices/pcwu.py:73-74 | the minimum ambient temperature options ascend strictly, the negative half before the positive |
| `Pcwu.DefinitionsWellFormed` | hewalex/hewalex_geco/devices/pcwu.py:32-98 | the flag-slot list appears exactly on the mask register and fits 16 bits; every option list is non-empty and strictly ascending |
| `Pcwu.BoolOptions` | hewalex/hewalex_geco/devices/pcwu.py:64-79 | every boolean register with options declares exactly [0, 1], and these are 304 and 326 |
| `Pcwu.Te10OptionRanges` | hewalex/hewalex_geco/devices/pcwu.py:66-74 | temperature options are tenths inside the described ranges: 308 in [100, 600], 310 in [20, 100], 312 in [-100, 100] without 0 |
| `Pcwu.StatusFlagLayout` | hewalex/hewalex_geco/devices/pcwu.py:44-58 | register 196 has 13 slots, named exactly at 0, 2, 5, 11, 12 (FanON, CirculationPumpON, HeatPumpON, CompressorON, HeaterEON) |
| `Pcwu.StatusFlagNames` | hewalex/hewalex_geco/devices/pcwu.py:44-58 | the names register 196 introduces are exactly its five flag names |
| `Pcwu.PlainNamesDistinct` | hewalex/hewalex_geco/devices/pcwu.py:32-98 | no two registers carry the same plain name |
| `Pcwu.FlagNamesApart` | hewalex/hewalex_geco/devices/pcwu.py:44-58 | 196 is the only mask register and none of its flag names is also a register name |
| `Pcwu.UniqueNames` | hewalex/hewalex_geco/devices/pcwu.py:32-98 | no name, flag names included, is introduced by two registers |
| `Pcwu.DescribedRegisters` | hewalex/hewalex_geco/devices/pcwu.py:32-98 | every register except 194 and 196 carries a description, and only registers of the table do |
| `Pcwu.CommentedOutUnknown` | hewalex/hewalex_geco/devices/pcwu.py:87-102 | every address above 338 other than 516, the commented-out ones included, is an unknown register and no write to it validates |
| `Pcwu.TapWaterTempValidation` | hewalex/hewalex_geco/devices/pcwu.py:66-71 | 308 accepts 150 and 112, rejects 115 and 120, and rejects everything below 100 or above 600 |
| `Pcwu.UncheckedRegisters` | hewalex/hewalex_geco/devices/pcwu.py:82-98 | registers without options (332, 334, 336, 338, 516) accept every value |
| `Pcwu.ConvenienceWrites` | hewalex/hewalex_geco/devices/pcwu.py:106-110 | enable writes 1 and disable writes 0, both to register 304 |
| `Pcwu.ConvenienceTarget` | hewalex/hewalex_geco/devices/pcwu.py:64-110 | the register they write is the boolean configuration register that the name HeatPumpEnabled resolves to |
| `Pcwu.ConvenienceWritesValid` | hewalex/hewalex_geco/devices/pcwu.py:64-110 | both writes pass validation, and 0 and 1 are the only values register 304 accepts |
| `Pcwu.StatusFlagsDistinct` | hewalex/hewalex_geco/devices/pcwu.py:44-58 | no flag name is bound to two bits of register 196 |
| `Pcwu.StatusFlagsExample` | hewalex/hewalex_geco/devices/pcwu.py:44-58 | a word with bits 5 and 11 set decodes to exactly {HeatPumpON, CompressorON} |
| `Pcwu.StatusFlagsZero` | hewalex/hewalex_geco/devices/pcwu.py:44-58 | a zero word decodes to no flag |
| `Pcwu.StatusFlagsFitWord` | hewalex/hewalex_geco/devices/pcwu.py:44-58 | any set of status flags encodes into one 16-bit word |
| `FlagMask.Encode` | hewalex/hewalex_geco/devices/pcwu.py:44-58 | an encoded word sets bit i exactly when slot i is named and its name is requested; unused slots and bits past the list stay 0 |
| `FlagMask.Decode` | hewalex/hewalex_geco/devices/pcwu.py:44-58 | decoding yields exactly the names of bound slots whose bit is set: only names the slot list binds, every such name, and nothing else (each name in the result belongs to a slot whose bit is set) |
| `FlagMask.DecodeSlot` | hewalex/hewalex_geco/devices/pcwu.py:44-58 | with distinct slot names, a slot's name is decoded exactly when its bit is set |
| `FlagMask.DecodeZero` | hewalex/hewalex_geco/devices/pcwu.py:44-58 | the zero word decodes to no name, whatever the slot list |
| `FlagMask.EncodeFitsWord` | hewalex/hewalex_geco/devices/pcwu.py:44-58 | a slot list of at most 16 entries encodes into a 16-bit word |
| `FlagMask.DecodeEncode` | hewalex/hewalex_geco/devices/pcwu.py:44-58 | decoding an encoded flag set gives back exactly the requested names that the slot list binds |
| `FlagMask.EncodeDecode` | hewalex/hewalex_geco/devices/pcwu.py:44-58 | with distinct slot names, re-encoding a decoded word gives the word with every unused-slot bit cleared |
| `FlagMask.DecodeIgnoresUnused` | hewalex/hewalex_geco/devices/pcwu.py:44-58 | two words that agree on the named bits decode alike: an unused bit never yields a name |

## Left out

- `BaseDevice.writeRegister`, the register reads, the serial handle and the bus eavesdropping (hewalex/hewalex_geco/devices/pcwu.py:23) are serial I/O in `base.py`, which is not part of this model. `Enable` and `Disable` return the address and value they hand to that write, and `ValidWrite` is the check a write should pass; `enable` and `disable` themselves call the write with no check.
- The byte and bit layouts of `bool`, `word`, `date`, `time`, `te10`, `tprg` and `mask` payloads live in `base.py`, which is not part of this model. The model carries the type tags but no codec for these types, except `mask`, for which `FlagMask` is this model's own per-slot convention (see the FlagMask line below).
- The register lookup and write checks of `base.py` are not modelled, including any check driven by the register type (such as a `bool` accepting only 0 and 1) and any refusal of writes to status registers. `ValidWrite` is this model's own option check.
- The conversion of tenths of a degree to decimal degrees is floating point. Values stay integer tenths.
- FlagMask: the bit order (slot i is bit i, least significant first) is this model's convention. The decoding routine in `base.py` is not part of this model.
- The status 202 / configuration 304 interaction (hewalex/hewalex_geco/devices/pcwu.py:15-27) is hardware behaviour, not code.
- The commented-out registers (hewalex/hewalex_geco/devices/pcwu.py:87-96 and hewalex/hewalex_geco/devices/pcwu.py:99-102) are not in the table. The model only states that their addresses are unknown.
- Register widths: raw values are unbounded integers. `ValidWrite` checks option membership only, not that a value fits a 16-bit word, because the table declares no width.
- The `desc` texts are kept verbatim in `Pcwu.Descriptions`. They only document the registers and no behaviour depends on them.
