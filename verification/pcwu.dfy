/**
 * The register table of the PCWU heat pump's executive module (MG-426-P01),
 * its address bounds, the split between status and configuration registers,
 * lookups, write validation, and the enable/disable convenience writes.
 */
module Pcwu {
  import opened Registers
  import FlagMask

  const REG_MAX_ADR: nat := 536
  const REG_MAX_NUM: nat := 226
  const REG_CONFIG_START: nat := 302

  /** The executive module's registers, keyed by address. */
  const Table: map<nat, RegDef> := map[
      // Status registers
      120 := RegDef(Date, Name("date"), None),
      124 := RegDef(Time, Name("time"), None),
      128 := RegDef(Te10, Name("T1"), None),
      130 := RegDef(Te10, Name("T2"), None),
      132 := RegDef(Te10, Name("T3"), None),
      138 := RegDef(Te10, Name("T6"), None),
      140 := RegDef(Te10, Name("T7"), None),
      142 := RegDef(Te10, Name("T8"), None),
      144 := RegDef(Te10, Name("T9"), None),
      146 := RegDef(Te10, Name("T10"), None),
      194 := RegDef(Bool, Name("IsManual"), None),
      196 := RegDef(Mask, Flags(StatusFlagSlots), None),
      198 := RegDef(Word, Name("EV1"), None),
      202 := RegDef(Word, Name("WaitingStatus"), None),
      // Config registers
      302 := RegDef(Word, Name("InstallationScheme"), Some([1, 2, 3, 4, 5, 6, 7, 8, 9])),
      304 := RegDef(Bool, Name("HeatPumpEnabled"), Some([0, 1])),
      306 := RegDef(Word, Name("TapWaterSensor"), Some([0, 1, 2])),
      308 := RegDef(Te10, Name("TapWaterTemp"),
                    Some([100, 110, 112, 130, 140, 150, 160, 170, 180, 190] +
                         [200, 210, 220, 230, 240, 250, 260, 270, 280, 290] +
                         [300, 310, 320, 330, 340, 350, 360, 370, 380, 390] +
                         [400, 410, 420, 430, 440, 450, 460, 470, 480, 490] +
                         [500, 510, 520, 530, 540, 550, 560, 570, 580, 590] +
                         [600])),
      310 := RegDef(Te10, Name("TapWaterHysteresis"), Some([20, 30, 40, 50, 60, 70, 80, 90, 100])),
      312 := RegDef(Te10, Name("AmbientMinTemp"),
                    Some([-100, -90, -80, -70, -60, -50, -40, -30, -20, -10,
                          10, 20, 30, 40, 50, 60, 70, 80, 90, 100])),
      314 := RegDef(Tprg, Name("TimeProgramHPM-F"), None),
      318 := RegDef(Tprg, Name("TimeProgramHPSat"), None),
      322 := RegDef(Tprg, Name("TimeProgramHPSun"), None),
      326 := RegDef(Bool, Name("AntiFreezingEnabled"), Some([0, 1])),
      328 := RegDef(Word, Name("WaterPumpOperationMode"), Some([0, 1])),
      330 := RegDef(Word, Name("FanOperationMode"), Some([0, 1, 2])),
      332 := RegDef(Word, Name("DefrostingInterval"), None),
      334 := RegDef(Te10, Name("DefrostingStartTemp"), None),
      336 := RegDef(Te10, Name("DefrostingStopTemp"), None),
      338 := RegDef(Word, Name("DefrostingMaxTime"), None),
      516 := RegDef(Bool, Name("ExtControllerHPOFF"), None)
    ]

  /** The `'desc'` text of the registers that carry one (all but 194 and 196). */
  const Descriptions: map<nat, string> := map[
      120 := "Date",
      124 := "Time",
      128 := "T1 (Ambient temp)",
      130 := "T2 (Tank bottom temp)",
      132 := "T3 (Tank top temp)",
      138 := "T6 (HP water inlet temp)",
      140 := "T7 (HP water outlet temp)",
      142 := "T8 (HP evaporator temp)",
      144 := "T9 (HP before compressor temp)",
      146 := "T10 (HP after compressor temp)",
      198 := "Expansion valve",
      202 := " 0 when available for operation, 2 when disabled through register 304",
      302 := "Installation Scheme (1-9)",
      304 := "Heat Pump Enabled (True/False)",
      306 := "Temp. sensor controlling heat pump operation [T2,T3,T7, factory setting T2]",
      308 := "HUW temperature for heat pump [10-60°C, factory setting 50°C]",
      310 := "Heat pump start-up hysteresis [2-10°C, factory setting 5°C]",
      312 := "Minimum ambient temperature (T1) [-10-10°C] ",
      314 := "Time Program HP M-F (True/False per hour of the day)",
      318 := "Time Program HP Sat (True/False per hour of the day)",
      322 := "Time Program HP Sun (True/False per hour of the day)",
      326 := "Function protecting against freezing [YES/NO], factory setting YES",
      328 := "Water Pump Operation Mode (0=Continuous, 1=Synchronous)",
      330 := "Fan Operation Mode (0=Max, 1=Min, 2=Day/Night), factory MAX",
      332 := "Defrosting cycle start-up delay [30-90 min., factory setting 45 min.]",
      334 := "Temperature activating defrosting [-30 - 0°C, factory setting -7°C]",
      336 := "Temperature finishing defrosting [2-30°C, factory setting 13°C]",
      338 := "Maximum defrosting duration [1-12 min., factory setting 8 min.]",
      516 := "Heat pump deactivation [YES/NO, factory setting YES]"
    ]

  /** The running-state flags of mask register 196, bit 0 first; `None` is an unused bit. */
  const StatusFlagSlots: seq<Option<string>> := [
      Some("FanON"),
      None,
      Some("CirculationPumpON"),
      None,
      None,
      Some("HeatPumpON"),
      None,
      None,
      None,
      None,
      None,
      Some("CompressorON"),
      Some("HeaterEON")
    ]

  /** The table's addresses in the order the table lists them. */
  const Addresses: seq<nat> := [
      120, 124, 128, 130, 132, 138, 140, 142, 144, 146, 194, 196, 198, 202,
      302, 304, 306, 308, 310, 312, 314, 318, 322, 326, 328, 330, 332, 334, 336, 338,
      516
    ]

  /**
   * Registers from REG_CONFIG_START up hold settings; the ones below report
   * status. Of the table, that puts 302-338 and 516 on the configuration side
   * and 120-202 on the status side.
   */
  function IsConfig(a: nat): (r: bool)
    ensures a in Table ==> (r <==> 302 <= a <= 338 || a == 516)
    ensures a in Table ==> (!r <==> 120 <= a <= 202)
  {
    TableKeys();
    a >= REG_CONFIG_START
  }

  /** The definition at an address; an address the table does not list is an unknown register. */
  function LookupByAddress(a: nat): (r: Result<RegDef>)
    ensures r.Ok? <==> a in Table
    ensures r.Ok? ==> r.value == Table[a]
    ensures r.Err? ==> r.error == UnknownRegister
  {
    if a in Table then Ok(Table[a]) else Err(UnknownRegister)
  }

  /** The first of `keys`, in order, whose definition in `defs` introduces the name `n`. */
  function FindName(n: string, defs: map<nat, RegDef>, keys: seq<nat>): (r: Option<nat>)
    requires forall k | k in keys :: k in defs
    ensures r.Some? ==> r.value in keys && n in NamesOf(defs[r.value])
    ensures r.Some? ==> exists j | 0 <= j < |keys| :: keys[j] == r.value && forall i | 0 <= i < j :: n !in NamesOf(defs[keys[i]])
    ensures r.None? ==> forall k | k in keys :: n !in NamesOf(defs[k])
  {
    if keys == [] then None
    else if n in NamesOf(defs[keys[0]]) then Some(keys[0])
    else FindName(n, defs, keys[1..])
  }

  /**
   * The address of the register that introduces the name `n`: a register's
   * own name, or a flag name of the mask register. A name no register
   * introduces is an unknown register.
   */
  function LookupByName(n: string): (r: Result<nat>)
    ensures r.Ok? ==> r.value in Table && n in NamesOf(Table[r.value])
    ensures r.Err? ==> r.error == UnknownRegister && forall a | a in Table :: n !in NamesOf(Table[a])
  {
    TableOrder();
    match FindName(n, Table, Addresses)
    case Some(a) => Ok(a)
    case None => Err(UnknownRegister)
  }

  /**
   * A write of `v` to `a` passes validation: an unknown register never does,
   * a register without options takes any value, and one with options takes
   * exactly the values it lists.
   */
  function ValidWrite(a: nat, v: int): (ok: bool)
    ensures LookupByAddress(a).Err? ==> !ok
    ensures a in Table && Table[a].options.None? ==> ok
    ensures a in Table && Table[a].options.Some? ==> (ok <==> v in Table[a].options.value)
  {
    a in Table && Accepts(Table[a], v)
  }

  /** A register write handed to the bus: the address and the raw value. */
  datatype WriteRequest = WriteRequest(address: nat, value: int)

  /** Switching the heat pump on writes 1, a value it accepts, to the register named HeatPumpEnabled. */
  function Enable(): (w: WriteRequest)
    ensures w.address in Table && Table[w.address].name == Name("HeatPumpEnabled")
    ensures w.value == 1 && ValidWrite(w.address, w.value)
  {
    WriteRequest(304, 1)
  }

  /** Switching the heat pump off writes 0, a value it accepts, to the register named HeatPumpEnabled. */
  function Disable(): (w: WriteRequest)
    ensures w.address in Table && Table[w.address].name == Name("HeatPumpEnabled")
    ensures w.value == 0 && ValidWrite(w.address, w.value)
  {
    WriteRequest(304, 0)
  }

  /**
   * The running-state flags reported by mask register 196 for a raw word:
   * only its five flag names, each present exactly when its bit is set.
   */
  function StatusFlags(raw: nat): (r: set<string>)
    ensures r <= {"FanON", "CirculationPumpON", "HeatPumpON", "CompressorON", "HeaterEON"}
    ensures "FanON" in r <==> FlagMask.Bit(raw, 0)
    ensures "CirculationPumpON" in r <==> FlagMask.Bit(raw, 2)
    ensures "HeatPumpON" in r <==> FlagMask.Bit(raw, 5)
    ensures "CompressorON" in r <==> FlagMask.Bit(raw, 11)
    ensures "HeaterEON" in r <==> FlagMask.Bit(raw, 12)
  {
    StatusFlagNames();
    StatusFlagsDistinct();
    StatusFlagLayout();
    FlagMask.DecodeSlot(StatusFlagSlots, raw, 0);
    FlagMask.DecodeSlot(StatusFlagSlots, raw, 2);
    FlagMask.DecodeSlot(StatusFlagSlots, raw, 5);
    FlagMask.DecodeSlot(StatusFlagSlots, raw, 11);
    FlagMask.DecodeSlot(StatusFlagSlots, raw, 12);
    FlagMask.Decode(StatusFlagSlots, raw)
  }

  // ---------------------------------------------------------------- table facts

  /** `Addresses` lists the table's keys, each once, in ascending order. */
  lemma TableOrder()
    ensures Ascending(Addresses)
    ensures Table.Keys == Elems(Addresses)
    ensures forall k | k in Addresses :: k in Table
  {
  }

  /** The table's addresses, as a disjunction, for proofs that go through the addresses one by one. */
  lemma TableKeys()
    ensures forall a | a in Table ::
      a == 120 || a == 124 || a == 128 || a == 130 || a == 132 || a == 138 || a == 140 || a == 142 ||
      a == 144 || a == 146 || a == 194 || a == 196 || a == 198 || a == 202 || a == 302 || a == 304 ||
      a == 306 || a == 308 || a == 310 || a == 312 || a == 314 || a == 318 || a == 322 || a == 326 ||
      a == 328 || a == 330 || a == 332 || a == 334 || a == 336 || a == 338 || a == 516
  {
  }

  /** Every populated address lies within REG_MAX_ADR. */
  lemma AddressBounds()
    ensures forall a | a in Table :: a <= REG_MAX_ADR
  {
  }

  /** The table populates 31 addresses, within REG_MAX_NUM. */
  lemma TableSize()
    ensures |Table| == 31 <= REG_MAX_NUM
  {
    TableOrder();
    AscendingCard(Addresses);
  }

  /**
   * The status registers are 120-202 and the configuration registers 302-338
   * and 516; so 202 is a status register and 304 a configuration register.
   */
  lemma StatusConfigSplit()
    ensures forall a | a in Table :: !IsConfig(a) <==> 120 <= a <= 202
    ensures forall a | a in Table :: IsConfig(a) <==> 302 <= a <= 338 || a == 516
    ensures 202 in Table && !IsConfig(202) && 304 in Table && IsConfig(304)
  {
  }

  /** Only configuration registers restrict their values to an option list. */
  lemma OptionsOnlyOnConfig()
    ensures forall a | a in Table && Table[a].options.Some? :: IsConfig(a)
  {
  }

  /** The tap-water temperature options, listed line by line, ascend across the lines. */
  lemma TapWaterTempOptionsAscending()
    ensures |Table[308].options.value| == 51
    ensures Ascending(Table[308].options.value)
  {
    var l1 := [100, 110, 112, 130, 140, 150, 160, 170, 180, 190];
    var l2 := [200, 210, 220, 230, 240, 250, 260, 270, 280, 290];
    var l3 := [300, 310, 320, 330, 340, 350, 360, 370, 380, 390];
    var l4 := [400, 410, 420, 430, 440, 450, 460, 470, 480, 490];
    var l5 := [500, 510, 520, 530, 540, 550, 560, 570, 580, 590];
    AscendingConcat(l1, l2);
    AscendingConcat(l1 + l2, l3);
    AscendingConcat(l1 + l2 + l3, l4);
    AscendingConcat(l1 + l2 + l3 + l4, l5);
    AscendingConcat(l1 + l2 + l3 + l4 + l5, [600]);
  }

  /** The minimum ambient temperature options ascend: the negative half, then the positive half. */
  lemma AmbientMinTempOptionsAscending()
    ensures Ascending(Table[312].options.value)
  {
    var below := [-100, -90, -80, -70, -60, -50, -40, -30, -20, -10];
    var above := [10, 20, 30, 40, 50, 60, 70, 80, 90, 100];
    AscendingConcat(below, above);
    assert Table[312].options.value == below + above;
  }

  /** Every definition is well formed: the slot list only on the mask register, options ascending. */
  lemma DefinitionsWellFormed()
    ensures forall a | a in Table :: WellFormedDef(Table[a])
  {
    StatusDefsWellFormed();
    ConfigDefsWellFormed();
  }

  /** The status definitions declare no options; only 196 has a slot list. */
  lemma StatusDefsWellFormed()
    ensures forall a | a in Table && a < REG_CONFIG_START :: WellFormedDef(Table[a])
  {
  }

  /** The configuration definitions, without options and then with them. */
  lemma ConfigDefsWellFormed()
    ensures forall a | a in Table && REG_CONFIG_START <= a :: WellFormedDef(Table[a])
  {
    ConfigDefsWithoutOptions();
    OptionRegistersListed();
    SmallOptionListsWellFormed();
    TemperatureOptionListsWellFormed();
  }

  lemma ConfigDefsWithoutOptions()
    ensures forall a | a in Table && REG_CONFIG_START <= a && Table[a].options.None? :: WellFormedDef(Table[a])
  {
  }

  /** The registers that declare options: 302-312 and 326-330. */
  lemma OptionRegistersListed()
    ensures forall a | a in Table && Table[a].options.Some? ::
      a == 302 || a == 304 || a == 306 || a == 308 || a == 310 || a == 312 || a == 326 || a == 328 || a == 330
  {
  }

  /** The short option lists, of at most nine entries, ascend. */
  lemma SmallOptionListsWellFormed()
    ensures WellFormedDef(Table[302]) && WellFormedDef(Table[304]) && WellFormedDef(Table[306])
    ensures WellFormedDef(Table[326]) && WellFormedDef(Table[328]) && WellFormedDef(Table[330])
  {
  }

  /** The temperature option lists ascend. */
  lemma TemperatureOptionListsWellFormed()
    ensures WellFormedDef(Table[308]) && WellFormedDef(Table[310]) && WellFormedDef(Table[312])
  {
    TapWaterTempOptionsAscending();
    AmbientMinTempOptionsAscending();
  }

  /** Every boolean register that declares options declares exactly [0, 1]: 304 and 326. */
  lemma BoolOptions()
    ensures forall a | a in Table && Table[a].kind == Bool && Table[a].options.Some? :: Table[a].options.value == [0, 1]
    ensures forall a | a in Table && Table[a].kind == Bool && Table[a].options.Some? :: a == 304 || a == 326
  {
  }

  /** The temperature registers that declare options: 308, 310 and 312. */
  lemma Te10OptionRegisters()
    ensures forall a | a in Table && Table[a].kind == Te10 && Table[a].options.Some? :: a in {308, 310, 312}
  {
    OptionRegistersListed();
  }

  /**
   * The temperature options are tenths of a degree inside the ranges the
   * descriptions give: 10-60 °C for 308, 2-10 °C for 310, -10-10 °C without 0 for 312.
   */
  lemma Te10OptionRanges()
    ensures forall a | a in Table && Table[a].kind == Te10 && Table[a].options.Some? :: a in {308, 310, 312}
    ensures forall v | v in Table[308].options.value :: 100 <= v <= 600
    ensures forall v | v in Table[310].options.value :: 20 <= v <= 100
    ensures forall v | v in Table[312].options.value :: -100 <= v <= 100 && v != 0
  {
    Te10OptionRegisters();
    TapWaterTempOptionsAscending();
    AmbientMinTempOptionsAscending();
    AscendingBounds(Table[308].options.value);
    AscendingBounds(Table[310].options.value);
    AscendingBounds(Table[312].options.value);
  }

  /** Mask register 196 has 13 slots; names sit at slots 0, 2, 5, 11 and 12 and nowhere else. */
  lemma StatusFlagLayout()
    ensures Table[196].name == Flags(StatusFlagSlots)
    ensures |StatusFlagSlots| == 13
    ensures forall i | 0 <= i < 13 :: StatusFlagSlots[i].Some? <==> i == 0 || i == 2 || i == 5 || i == 11 || i == 12
    ensures StatusFlagSlots[0] == Some("FanON") && StatusFlagSlots[2] == Some("CirculationPumpON")
    ensures StatusFlagSlots[5] == Some("HeatPumpON") && StatusFlagSlots[11] == Some("CompressorON")
    ensures StatusFlagSlots[12] == Some("HeaterEON")
  {
  }

  /** The flag names of mask register 196. */
  lemma StatusFlagNames()
    ensures SlotNames(StatusFlagSlots) == {"FanON", "CirculationPumpON", "HeatPumpON", "CompressorON", "HeaterEON"}
  {
    var s := StatusFlagSlots;
    assert s[0].value == "FanON" && s[2].value == "CirculationPumpON" && s[5].value == "HeatPumpON";
    assert s[11].value == "CompressorON" && s[12].value == "HeaterEON";
  }

  /** Registers `a` and `b` carry the same plain name. */
  predicate NameClash(a: nat, b: nat)
  {
    a in Table && b in Table && Table[a].name.Name? && Table[b].name.Name? && Table[a].name.text == Table[b].name.text
  }

  /*
   * The name of each register differs from the names of all registers at
   * higher addresses. Stated over the whole table at once, this is one
   * obligation comparing every pair of the 31 entries' string literals,
   * which the verifier cannot discharge within its budget. Each lemma below
   * therefore takes a few addresses `a` and compares them with every higher
   * address; a slice holds fewer addresses where more higher addresses
   * remain to compare with, so the slices cost about the same. `NamesApart`
   * puts the slices back together for any pair of addresses.
   */
  lemma NamesApart1()
    ensures forall a: nat, b: nat | a == 120 && a < b :: !NameClash(a, b)
  {
  }

  lemma NamesApart2()
    ensures forall a: nat, b: nat | a == 124 && a < b :: !NameClash(a, b)
  {
  }

  lemma NamesApart3()
    ensures forall a: nat, b: nat | (a == 128 || a == 130) && a < b :: !NameClash(a, b)
  {
  }

  lemma NamesApart4()
    ensures forall a: nat, b: nat | (a == 132 || a == 138) && a < b :: !NameClash(a, b)
  {
  }

  lemma NamesApart5()
    ensures forall a: nat, b: nat | (a == 140 || a == 142) && a < b :: !NameClash(a, b)
  {
  }

  lemma NamesApart6()
    ensures forall a: nat, b: nat | (a == 144 || a == 146 || a == 194) && a < b :: !NameClash(a, b)
  {
  }

  lemma NamesApart7()
    ensures forall a: nat, b: nat | (a == 196 || a == 198) && a < b :: !NameClash(a, b)
  {
  }

  lemma NamesApart8()
    ensures forall a: nat, b: nat | (a == 202 || a == 302) && a < b :: !NameClash(a, b)
  {
  }

  lemma NamesApart9()
    ensures forall a: nat, b: nat | (a == 304 || a == 306) && a < b :: !NameClash(a, b)
  {
  }

  lemma NamesApart10()
    ensures forall a: nat, b: nat | (a == 308 || a == 310 || a == 312 || a == 314) && a < b :: !NameClash(a, b)
  {
  }

  lemma NamesApart11()
    ensures forall a: nat, b: nat | (a == 318 || a == 322 || a == 326 || a == 328) && a < b :: !NameClash(a, b)
  {
  }

  lemma NamesApart12()
    ensures forall a: nat, b: nat | (a == 330 || a == 332 || a == 334 || a == 336 || a == 338) && a < b :: !NameClash(a, b)
  {
  }

  /** Of two registers, the lower one's plain name is not the higher one's. */
  lemma NamesApart(a: nat, b: nat)
    requires a < b
    ensures !NameClash(a, b)
  {
    TableKeys();
    NamesApart1();
    NamesApart2();
    NamesApart3();
    NamesApart4();
    NamesApart5();
    NamesApart6();
    NamesApart7();
    NamesApart8();
    NamesApart9();
    NamesApart10();
    NamesApart11();
    NamesApart12();
  }

  /** Registers with a plain name never share it. */
  lemma PlainNamesDistinct()
    ensures forall a: nat, b: nat | a in Table && b in Table && Table[a].name.Name? && Table[b].name.Name? && Table[a].name.text == Table[b].name.text :: a == b
  {
    forall a: nat, b: nat | a in Table && b in Table && Table[a].name.Name? && Table[b].name.Name? && Table[a].name.text == Table[b].name.text
      ensures a == b
    {
      if a < b {
        NamesApart(a, b);
      } else if b < a {
        NamesApart(b, a);
      }
    }
  }

  /** Register 196 is the only mask register, and no plain name is also one of its flag names. */
  lemma FlagNamesApart()
    ensures forall a | a in Table && Table[a].name.Flags? :: a == 196
    ensures forall a | a in Table && Table[a].name.Name? :: Table[a].name.text !in SlotNames(StatusFlagSlots)
  {
    MaskRegisterUnique();
    PlainNamesNotFlags();
  }

  lemma MaskRegisterUnique()
    ensures forall a | a in Table && Table[a].name.Flags? :: a == 196
  {
    TableKeys();
  }

  lemma PlainNamesNotFlags()
    ensures forall a | a in Table && Table[a].name.Name? :: Table[a].name.text !in SlotNames(StatusFlagSlots)
  {
    TableKeys();
    NotFlagNames1();
    NotFlagNames2();
    NotFlagNames3();
    NotFlagNames4();
    NotFlagNames5();
    NotFlagNames6();
  }

  /*
   * No plain name is a flag name. As with `NamesApart1` and its siblings,
   * the table is sliced only to keep each obligation small: every slice
   * compares a few registers' names with the five flag names, and
   * `PlainNamesNotFlags` combines the slices over the whole table.
   */
  lemma NotFlagNames1()
    ensures forall a: nat | (a == 120 || a == 124 || a == 128 || a == 130 || a == 132) && Table[a].name.Name? ::
      Table[a].name.text !in SlotNames(StatusFlagSlots)
  {
    StatusFlagNames();
  }

  lemma NotFlagNames2()
    ensures forall a: nat | (a == 138 || a == 140 || a == 142 || a == 144 || a == 146) && Table[a].name.Name? ::
      Table[a].name.text !in SlotNames(StatusFlagSlots)
  {
    StatusFlagNames();
  }

  lemma NotFlagNames3()
    ensures forall a: nat | (a == 194 || a == 198 || a == 202 || a == 302 || a == 304) && Table[a].name.Name? ::
      Table[a].name.text !in SlotNames(StatusFlagSlots)
  {
    StatusFlagNames();
  }

  lemma NotFlagNames4()
    ensures forall a: nat | (a == 306 || a == 308 || a == 310 || a == 312 || a == 314) && Table[a].name.Name? ::
      Table[a].name.text !in SlotNames(StatusFlagSlots)
  {
    StatusFlagNames();
  }

  lemma NotFlagNames5()
    ensures forall a: nat | (a == 318 || a == 322 || a == 326 || a == 328 || a == 330) && Table[a].name.Name? ::
      Table[a].name.text !in SlotNames(StatusFlagSlots)
  {
    StatusFlagNames();
  }

  lemma NotFlagNames6()
    ensures forall a: nat | (a == 332 || a == 334 || a == 336 || a == 338 || a == 516) && Table[a].name.Name? ::
      Table[a].name.text !in SlotNames(StatusFlagSlots)
  {
    StatusFlagNames();
  }

  /** Every register but 194 and 196 carries a description, and only registers of the table do. */
  lemma DescribedRegisters()
    ensures Descriptions.Keys == Table.Keys - {194, 196}
  {
  }

  /** No name is introduced by two registers, counting the flag names of the mask register. */
  lemma UniqueNames()
    ensures forall a, b, n | a in Table && b in Table && n in NamesOf(Table[a]) && n in NamesOf(Table[b]) :: a == b
  {
    PlainNamesDistinct();
    FlagNamesApart();
    forall a, b, n | a in Table && b in Table && n in NamesOf(Table[a]) && n in NamesOf(Table[b])
      ensures a == b
    {
      if Table[a].name.Name? && Table[b].name.Name? {
        assert Table[a].name.text == n == Table[b].name.text;
      } else {
        assert Table[196].name == Flags(StatusFlagSlots);
      }
    }
  }

  /** Every name a register introduces looks up to that register and to no other. */
  lemma NameLookupInverse(a: nat, n: string)
    requires a in Table && n in NamesOf(Table[a])
    ensures LookupByName(n) == Ok(a)
    ensures LookupByAddress(a) == Ok(Table[a])
  {
    UniqueNames();
  }

  /**
   * Past the last configuration register in the 302-338 block nothing is
   * populated but 516: the addresses left in comments (374-476, 518-524) are
   * unknown registers, and no write to them validates.
   */
  lemma CommentedOutUnknown(a: nat, v: int)
    requires 338 < a && a != 516
    ensures LookupByAddress(a) == Err(UnknownRegister)
    ensures !ValidWrite(a, v)
  {
    TableKeys();
  }

  // ---------------------------------------------------------------- validation

  /** Validation of the tap-water temperature is membership in its list, exactly as listed. */
  lemma TapWaterTempValidation()
    ensures ValidWrite(308, 150) && ValidWrite(308, 112)
    ensures !ValidWrite(308, 115) && !ValidWrite(308, 120)
    ensures forall v | v < 100 || 600 < v :: !ValidWrite(308, v)
  {
    var opts := Table[308].options.value;
    TapWaterTempOptionsAscending();
    assert opts[2] == 112 && opts[3] == 130;
    AscendingGap(opts, 2, 115);
    AscendingGap(opts, 2, 120);
    AscendingBounds(opts);
  }

  /** Registers without options accept every value: 332-338 and 516, for instance. */
  lemma UncheckedRegisters(v: int)
    ensures ValidWrite(332, v) && ValidWrite(334, v) && ValidWrite(336, v) && ValidWrite(338, v)
    ensures ValidWrite(516, v)
  {
  }

  // ---------------------------------------------------------------- enable / disable

  /** Enable and disable write 1 and 0 to the same register, 304. */
  lemma ConvenienceWrites()
    ensures Enable().address == Disable().address == 304
    ensures Enable().value == 1 && Disable().value == 0
  {
  }

  /**
   * The register enable and disable write to is the boolean configuration
   * register named HeatPumpEnabled.
   */
  lemma ConvenienceTarget()
    ensures Table[Enable().address].kind == Bool && IsConfig(Enable().address)
    ensures LookupByName("HeatPumpEnabled") == Ok(Enable().address)
  {
    NameLookupInverse(304, "HeatPumpEnabled");
  }

  /**
   * Both convenience writes pass validation, and they are the only two
   * values register 304 accepts.
   */
  lemma ConvenienceWritesValid()
    ensures ValidWrite(Enable().address, Enable().value) && ValidWrite(Disable().address, Disable().value)
    ensures forall v :: ValidWrite(304, v) <==> v == Enable().value || v == Disable().value
  {
  }

  // ---------------------------------------------------------------- status flags

  /** No flag name is bound to two bits of register 196. */
  lemma StatusFlagsDistinct()
    ensures FlagMask.DistinctSlots(StatusFlagSlots)
  {
  }

  /** A word with bits 5 and 11 set reports the heat pump and the compressor running. */
  lemma StatusFlagsExample()
    ensures StatusFlags(0x0820) == {"HeatPumpON", "CompressorON"}
  {
    var s := StatusFlagSlots;
    assert FlagMask.Bit(0x0820, 5) && FlagMask.Bit(0x0820, 11);
    assert !FlagMask.Bit(0x0820, 0) && !FlagMask.Bit(0x0820, 2) && !FlagMask.Bit(0x0820, 12);
    assert s[5].value == "HeatPumpON" && s[11].value == "CompressorON";
  }

  /** A zero word reports no flag. */
  lemma StatusFlagsZero()
    ensures StatusFlags(0) == {}
  {
    FlagMask.DecodeZero(StatusFlagSlots);
  }

  /** Any set of status flags encodes into one 16-bit word of register 196. */
  lemma StatusFlagsFitWord(flags: set<string>)
    ensures FlagMask.Encode(StatusFlagSlots, flags) < 0x1_0000
  {
    StatusFlagLayout();
    FlagMask.EncodeFitsWord(StatusFlagSlots, flags);
  }
}
