/**
 The Modbus side of the SDM120 emulator: the input-register map, the
 float-to-register split, the freshness timestamp and the decision the
 request callback takes.
 */
module Modbus {
  import opened Wrappers
  import opened Words
  import opened DataManager

  // ---------------------------------------------------------------------------
  // Register map (ModbusManager.h)
  // ---------------------------------------------------------------------------

  /** The nine quantities the emulated meter serves, each as one 32-bit float in two registers. */
  datatype Slot =
    | RegVoltage
    | RegCurrent
    | RegActivePower
    | RegApparentPower
    | RegReactivePower
    | RegPowerFactor
    | RegPhaseAngle
    | RegFrequency
    | RegTotalActiveEnergy

  const SDM120_REG_VOLTAGE: Uint16 := 0x0000
  const SDM120_REG_CURRENT: Uint16 := 0x0006
  const SDM120_REG_ACTIVE_POWER: Uint16 := 0x000C
  const SDM120_REG_APPARENT_POWER: Uint16 := 0x0012
  const SDM120_REG_REACTIVE_POWER: Uint16 := 0x0018
  const SDM120_REG_POWER_FACTOR: Uint16 := 0x001E
  const SDM120_REG_PHASE_ANGLE: Uint16 := 0x0024
  const SDM120_REG_FREQUENCY: Uint16 := 0x0046
  const SDM120_REG_TOTAL_ACTIVE_ENERGY: Uint16 := 0x0048

  /** The data source counts as offline once no online report is this old (milliseconds). */
  const MODBUS_OFFLINE_TIMEOUT_MS: Uint32 := 30000

  /** The base (high-word) address of a slot; the low word lives at the next address. */
  function Base(s: Slot): (a: Uint16)
    ensures a + 1 < TWO_TO_THE_16
  {
    match s
    case RegVoltage => SDM120_REG_VOLTAGE
    case RegCurrent => SDM120_REG_CURRENT
    case RegActivePower => SDM120_REG_ACTIVE_POWER
    case RegApparentPower => SDM120_REG_APPARENT_POWER
    case RegReactivePower => SDM120_REG_REACTIVE_POWER
    case RegPowerFactor => SDM120_REG_POWER_FACTOR
    case RegPhaseAngle => SDM120_REG_PHASE_ANGLE
    case RegFrequency => SDM120_REG_FREQUENCY
    case RegTotalActiveEnergy => SDM120_REG_TOTAL_ACTIVE_ENERGY
  }

  /** The two addresses of a slot: the base address (high word) and the one after it (low word). */
  function SlotPair(s: Slot): set<Uint16> {
    {Base(s), Base(s) + 1}
  }

  /** The slot whose two-word window holds address a, if there is one. */
  function SlotAt(a: int): (r: Option<Slot>)
    ensures r.Some? ==> a == Base(r.value) || a == Base(r.value) + 1
  {
    if a == SDM120_REG_VOLTAGE || a == SDM120_REG_VOLTAGE + 1 then Some(RegVoltage)
    else if a == SDM120_REG_CURRENT || a == SDM120_REG_CURRENT + 1 then Some(RegCurrent)
    else if a == SDM120_REG_ACTIVE_POWER || a == SDM120_REG_ACTIVE_POWER + 1 then Some(RegActivePower)
    else if a == SDM120_REG_APPARENT_POWER || a == SDM120_REG_APPARENT_POWER + 1 then Some(RegApparentPower)
    else if a == SDM120_REG_REACTIVE_POWER || a == SDM120_REG_REACTIVE_POWER + 1 then Some(RegReactivePower)
    else if a == SDM120_REG_POWER_FACTOR || a == SDM120_REG_POWER_FACTOR + 1 then Some(RegPowerFactor)
    else if a == SDM120_REG_PHASE_ANGLE || a == SDM120_REG_PHASE_ANGLE + 1 then Some(RegPhaseAngle)
    else if a == SDM120_REG_FREQUENCY || a == SDM120_REG_FREQUENCY + 1 then Some(RegFrequency)
    else if a == SDM120_REG_TOTAL_ACTIVE_ENERGY || a == SDM120_REG_TOTAL_ACTIVE_ENERGY + 1 then Some(RegTotalActiveEnergy)
    else None
  }

  /** Both addresses of a slot's window lead back to the slot. */
  lemma SlotAtWindow(s: Slot)
    ensures SlotAt(Base(s)) == Some(s) && SlotAt(Base(s) + 1) == Some(s)
  {
  }

  /** The two-word windows of distinct slots never overlap. */
  lemma SlotsDisjoint(s: Slot, t: Slot)
    requires s != t
    ensures SlotPair(s) !! SlotPair(t)
  {
    SlotAtWindow(s);
    SlotAtWindow(t);
  }

  /** The 18 register addresses that begin() registers with addIreg, slot by slot in its order. */
  const RegisterAddresses: set<Uint16> :=
    SlotPair(RegVoltage) + SlotPair(RegCurrent) + SlotPair(RegActivePower)
    + SlotPair(RegApparentPower) + SlotPair(RegReactivePower) + SlotPair(RegPowerFactor)
    + SlotPair(RegPhaseAngle) + SlotPair(RegFrequency) + SlotPair(RegTotalActiveEnergy)

  /** Each slot's window is registered. */
  lemma SlotRegistered(s: Slot)
    ensures SlotPair(s) <= RegisterAddresses
  {
    match s
    case RegVoltage =>
    case RegCurrent =>
    case RegActivePower =>
    case RegApparentPower =>
    case RegReactivePower =>
    case RegPowerFactor =>
    case RegPhaseAngle =>
    case RegFrequency =>
    case RegTotalActiveEnergy =>
  }

  /** Both words of every slot are registered, and nothing else is. */
  lemma RegisterAddressesAreTheSlots(a: Uint16)
    ensures a in RegisterAddresses <==> exists s: Slot :: a in SlotPair(s)
  {
    forall s: Slot | a in SlotPair(s)
      ensures a in RegisterAddresses
    {
      SlotRegistered(s);
    }
  }

  /** Adding the window sets in another order gives the same set. */
  lemma SwapUnion(x: set<Uint16>, a: set<Uint16>, b: set<Uint16>, c: set<Uint16>)
    ensures x + a + b + c == x + b + a + c
  {
  }

  // ---------------------------------------------------------------------------
  // Float to register words (the float_to_uint16 union)
  // ---------------------------------------------------------------------------

  /**
   The arithmetic the register writer delegates to the C library: the IEEE-754
   bit pattern of a float (the `f` member of the union), sqrt and acos.
   */
  datatype FloatMath = FloatMath(bits: real -> Uint32, sqrt: real -> real, acos: real -> real)
  {
    function Bits(x: real): Uint32 { bits(x) }
    function Sqrt(x: real): real { sqrt(x) }
    function Acos(x: real): real { acos(x) }
  }

  /** M_PI as math.h defines it. */
  const M_PI: real := 3.14159265358979323846

  /** The high half of a 32-bit pattern. */
  function High(w: Uint32): Uint16 {
    w / TWO_TO_THE_16
  }

  /** The low half of a 32-bit pattern. */
  function Low(w: Uint32): Uint16 {
    w % TWO_TO_THE_16
  }

  /**
   The `uint16_t i[2]` view of the union on the little-endian ESP32: i[0] holds
   the low half of the 32-bit pattern and i[1] the high half.
   */
  function Overlay(w: Uint32): (i: seq<Uint16>)
    ensures |i| == 2
    ensures i[1] * TWO_TO_THE_16 + i[0] == w
  {
    [Low(w), High(w)]
  }

  /** The 32-bit pattern a Modbus master rebuilds from the high and the low register. */
  function Join(hi: Uint16, lo: Uint16): (w: Uint32)
  {
    hi * TWO_TO_THE_16 + lo
  }

  /** The split is lossless: joining the two halves gives back the pattern... */
  lemma OverlayJoin(w: Uint32)
    ensures Join(Overlay(w)[1], Overlay(w)[0]) == w
  {
  }

  /** ...and every pair of words is the split of exactly one pattern. */
  lemma JoinOverlay(hi: Uint16, lo: Uint16)
    ensures Overlay(Join(hi, lo)) == [lo, hi]
  {
    var w := Join(hi, lo);
    assert w / TWO_TO_THE_16 == hi && w % TWO_TO_THE_16 == lo;
  }

  // ---------------------------------------------------------------------------
  // What updateModbusRegisters writes
  // ---------------------------------------------------------------------------

  /** Apparent power, voltage times current. */
  function ApparentPower(d: MeterData): real {
    d.voltageV * d.currentA
  }

  /** Reactive power from apparent power and power factor: S * sqrt(1 - PF^2). */
  function ReactivePower(apparent: real, pf: real, fm: FloatMath): real {
    apparent * fm.Sqrt(1.0 - pf * pf)
  }

  /** The phase angle in degrees: acos(PF) * (180 / M_PI). */
  function PhaseAngle(pf: real, fm: FloatMath): real {
    fm.Acos(pf) * (180.0 / M_PI)
  }

  /** The value a slot carries for reading d: six fields as they are, three derived from them. */
  function SlotValue(s: Slot, d: MeterData, fm: FloatMath): real {
    match s
    case RegVoltage => d.voltageV
    case RegCurrent => d.currentA
    case RegActivePower => d.powerW
    case RegApparentPower => ApparentPower(d)
    case RegReactivePower => ReactivePower(ApparentPower(d), d.powerFactor, fm)
    case RegPowerFactor => d.powerFactor
    case RegPhaseAngle => PhaseAngle(d.powerFactor, fm)
    case RegFrequency => d.frequencyHz
    case RegTotalActiveEnergy => d.energyKwh
  }

  /** The nine 32-bit patterns one update writes, one per slot. */
  datatype Patterns = Patterns(
    voltage: Uint32, current: Uint32, activePower: Uint32,
    apparentPower: Uint32, reactivePower: Uint32, powerFactor: Uint32,
    phaseAngle: Uint32, frequency: Uint32, totalActiveEnergy: Uint32)
  {
    function Of(s: Slot): Uint32 {
      match s
      case RegVoltage => voltage
      case RegCurrent => current
      case RegActivePower => activePower
      case RegApparentPower => apparentPower
      case RegReactivePower => reactivePower
      case RegPowerFactor => powerFactor
      case RegPhaseAngle => phaseAngle
      case RegFrequency => frequency
      case RegTotalActiveEnergy => totalActiveEnergy
    }
  }

  /** The patterns of the nine slot values of reading d. */
  function PatternsOf(d: MeterData, fm: FloatMath): (ps: Patterns)
  {
    var apparent := ApparentPower(d);
    Patterns(
      fm.Bits(d.voltageV), fm.Bits(d.currentA), fm.Bits(d.powerW),
      fm.Bits(apparent), fm.Bits(ReactivePower(apparent, d.powerFactor, fm)), fm.Bits(d.powerFactor),
      fm.Bits(PhaseAngle(d.powerFactor, fm)), fm.Bits(d.frequencyHz), fm.Bits(d.energyKwh))
  }

  /** Writing pattern w into slot s of table t: the high half at the base address, the low half after it. */
  function Put(t: map<Uint16, Uint16>, s: Slot, w: Uint32): map<Uint16, Uint16> {
    t[Base(s) := High(w)][Base(s) + 1 := Low(w)]
  }

  /** A write adds the slot's window to the table's addresses. */
  lemma PutKeys(t: map<Uint16, Uint16>, s: Slot, w: Uint32)
    ensures Put(t, s, w).Keys == t.Keys + SlotPair(s)
  {
  }

  /** The first write makes a table of just the slot's window. */
  lemma PutKeysEmpty(s: Slot, w: Uint32)
    ensures Put(map[], s, w).Keys == SlotPair(s)
  {
  }

  /** The register words of nine patterns, written slot by slot in the writer's order. */
  function Table(ps: Patterns): map<Uint16, Uint16> {
    Put(Put(Put(Put(Put(Put(Put(Put(Put(map[], RegVoltage, ps.voltage), RegCurrent, ps.current),
      RegActivePower, ps.activePower), RegApparentPower, ps.apparentPower),
      RegReactivePower, ps.reactivePower), RegPowerFactor, ps.powerFactor),
      RegFrequency, ps.frequency), RegPhaseAngle, ps.phaseAngle),
      RegTotalActiveEnergy, ps.totalActiveEnergy)
  }

  /** The order of the writes: the frequency comes before the phase angle. */
  const UPDATE_ORDER: seq<Slot> := [RegVoltage, RegCurrent, RegActivePower, RegApparentPower,
    RegReactivePower, RegPowerFactor, RegFrequency, RegPhaseAngle, RegTotalActiveEnergy]

  /** The order names every slot. */
  lemma UpdateOrderNamesEverySlot(s: Slot)
    ensures s in UPDATE_ORDER
  {
    match s
    case RegVoltage =>
    case RegCurrent =>
    case RegActivePower =>
    case RegApparentPower =>
    case RegReactivePower =>
    case RegPowerFactor =>
    case RegPhaseAngle =>
    case RegFrequency =>
    case RegTotalActiveEnergy =>
  }

  /** The words of the slots ss, written one slot after the other onto an empty table. */
  function Written(ss: seq<Slot>, ps: Patterns): map<Uint16, Uint16> {
    if ss == [] then map[] else Put(Written(ss[..|ss| - 1], ps), ss[|ss| - 1], ps.Of(ss[|ss| - 1]))
  }

  /** Each slot that ss names holds its pattern, high half first, whatever the other slots were. */
  lemma {:induction false} WrittenSlot(ss: seq<Slot>, ps: Patterns, s: Slot)
    requires s in ss
    ensures Base(s) in Written(ss, ps) && Base(s) + 1 in Written(ss, ps)
    ensures Written(ss, ps)[Base(s)] == High(ps.Of(s)) && Written(ss, ps)[Base(s) + 1] == Low(ps.Of(s))
    decreases |ss|
  {
    var init, last := ss[..|ss| - 1], ss[|ss| - 1];
    if s != last {
      assert ss == init + [last];
      WrittenSlot(init, ps, s);
      SlotsDisjoint(s, last);
    }
  }

  /** Extending the slots by one writes that slot's words last. */
  lemma WrittenPrefix(ss: seq<Slot>, ps: Patterns, k: nat)
    requires k < |ss|
    ensures Written(ss[..k + 1], ps) == Put(Written(ss[..k], ps), ss[k], ps.Of(ss[k]))
  {
    assert ss[..k + 1][..k] == ss[..k];
  }

  /** The table is the slots of the writer's order written one after the other. */
  lemma TableIsWritten(ps: Patterns)
    ensures Table(ps) == Written(UPDATE_ORDER, ps)
  {
    var o := UPDATE_ORDER;
    assert o[..0] == [];
    assert o[0] == RegVoltage;
    WrittenPrefix(o, ps, 0);
    assert o[1] == RegCurrent;
    WrittenPrefix(o, ps, 1);
    assert o[2] == RegActivePower;
    WrittenPrefix(o, ps, 2);
    assert o[3] == RegApparentPower;
    WrittenPrefix(o, ps, 3);
    assert o[4] == RegReactivePower;
    WrittenPrefix(o, ps, 4);
    assert o[5] == RegPowerFactor;
    WrittenPrefix(o, ps, 5);
    assert o[6] == RegFrequency;
    WrittenPrefix(o, ps, 6);
    assert o[7] == RegPhaseAngle;
    WrittenPrefix(o, ps, 7);
    assert o[8] == RegTotalActiveEnergy;
    WrittenPrefix(o, ps, 8);
    assert o[..9] == o;
  }

  /** The addresses of the table, window by window in the writer's order. */
  lemma TableWindows(ps: Patterns)
    ensures Table(ps).Keys == SlotPair(RegVoltage) + SlotPair(RegCurrent) + SlotPair(RegActivePower)
      + SlotPair(RegApparentPower) + SlotPair(RegReactivePower) + SlotPair(RegPowerFactor)
      + SlotPair(RegFrequency) + SlotPair(RegPhaseAngle) + SlotPair(RegTotalActiveEnergy)
  {
    var t: map<Uint16, Uint16> := Put(map[], RegVoltage, ps.voltage);
    PutKeysEmpty(RegVoltage, ps.voltage);
    PutKeys(t, RegCurrent, ps.current);
    t := Put(t, RegCurrent, ps.current);
    PutKeys(t, RegActivePower, ps.activePower);
    t := Put(t, RegActivePower, ps.activePower);
    PutKeys(t, RegApparentPower, ps.apparentPower);
    t := Put(t, RegApparentPower, ps.apparentPower);
    PutKeys(t, RegReactivePower, ps.reactivePower);
    t := Put(t, RegReactivePower, ps.reactivePower);
    PutKeys(t, RegPowerFactor, ps.powerFactor);
    t := Put(t, RegPowerFactor, ps.powerFactor);
    PutKeys(t, RegFrequency, ps.frequency);
    t := Put(t, RegFrequency, ps.frequency);
    PutKeys(t, RegPhaseAngle, ps.phaseAngle);
    t := Put(t, RegPhaseAngle, ps.phaseAngle);
    PutKeys(t, RegTotalActiveEnergy, ps.totalActiveEnergy);
  }

  /** The table holds exactly the registered addresses. */
  lemma TableKeys(ps: Patterns)
    ensures Table(ps).Keys == RegisterAddresses
  {
    TableWindows(ps);
    SwapUnion(SlotPair(RegVoltage) + SlotPair(RegCurrent) + SlotPair(RegActivePower)
      + SlotPair(RegApparentPower) + SlotPair(RegReactivePower) + SlotPair(RegPowerFactor),
      SlotPair(RegFrequency), SlotPair(RegPhaseAngle), SlotPair(RegTotalActiveEnergy));
  }

  /** Each slot's pattern sits in its two-word window, high half first. */
  lemma TableSlot(ps: Patterns, s: Slot)
    ensures Base(s) in Table(ps) && Base(s) + 1 in Table(ps)
    ensures Table(ps)[Base(s)] == High(ps.Of(s)) && Table(ps)[Base(s) + 1] == Low(ps.Of(s))
  {
    TableIsWritten(ps);
    UpdateOrderNamesEverySlot(s);
    WrittenSlot(UPDATE_ORDER, ps, s);
  }

  /** The whole register table one update writes for reading d. */
  function EncodeRegisters(d: MeterData, fm: FloatMath): map<Uint16, Uint16> {
    Table(PatternsOf(d, fm))
  }

  /** The encoding of a reading, written out slot by slot as one update writes it. */
  lemma EncodeRegistersSlotBySlot(d: MeterData, fm: FloatMath)
    ensures EncodeRegisters(d, fm) ==
      Put(Put(Put(Put(Put(Put(Put(Put(Put(map[],
        RegVoltage, fm.Bits(d.voltageV)), RegCurrent, fm.Bits(d.currentA)),
        RegActivePower, fm.Bits(d.powerW)), RegApparentPower, fm.Bits(ApparentPower(d))),
        RegReactivePower, fm.Bits(ReactivePower(ApparentPower(d), d.powerFactor, fm))),
        RegPowerFactor, fm.Bits(d.powerFactor)), RegFrequency, fm.Bits(d.frequencyHz)),
        RegPhaseAngle, fm.Bits(PhaseAngle(d.powerFactor, fm))), RegTotalActiveEnergy, fm.Bits(d.energyKwh))
  {
  }

  /** An update writes exactly the 18 registered addresses. */
  lemma EncodedAddresses(d: MeterData, fm: FloatMath)
    ensures EncodeRegisters(d, fm).Keys == RegisterAddresses
  {
    TableKeys(PatternsOf(d, fm));
  }

  /**
   For every slot the table holds the high word of the value's pattern at the
   base address and the low word after it, so that a master joining the two
   gets the pattern back exactly.
   */
  lemma PatternOfSlot(s: Slot, d: MeterData, fm: FloatMath)
    ensures PatternsOf(d, fm).Of(s) == fm.Bits(SlotValue(s, d, fm))
  {
  }

  lemma EncodedSlot(s: Slot, d: MeterData, fm: FloatMath)
    ensures Base(s) in EncodeRegisters(d, fm) && Base(s) + 1 in EncodeRegisters(d, fm)
    ensures EncodeRegisters(d, fm)[Base(s)] == High(fm.Bits(SlotValue(s, d, fm)))
    ensures EncodeRegisters(d, fm)[Base(s) + 1] == Low(fm.Bits(SlotValue(s, d, fm)))
    ensures Join(EncodeRegisters(d, fm)[Base(s)], EncodeRegisters(d, fm)[Base(s) + 1]) == fm.Bits(SlotValue(s, d, fm))
  {
    TableSlot(PatternsOf(d, fm), s);
    PatternOfSlot(s, d, fm);
    OverlayJoin(fm.Bits(SlotValue(s, d, fm)));
  }

  /** Readings that differ in one of the six served fields give different register tables. */
  lemma EncodingSeparatesServedFields(d: MeterData, e: MeterData, fm: FloatMath, s: Slot)
    requires s in {RegVoltage, RegCurrent, RegActivePower, RegPowerFactor, RegFrequency, RegTotalActiveEnergy}
    requires fm.Bits(SlotValue(s, d, fm)) != fm.Bits(SlotValue(s, e, fm))
    ensures EncodeRegisters(d, fm) != EncodeRegisters(e, fm)
  {
    var t, u := EncodeRegisters(d, fm), EncodeRegisters(e, fm);
    EncodedSlot(s, d, fm);
    EncodedSlot(s, e, fm);
    assert Join(t[Base(s)], t[Base(s) + 1]) != Join(u[Base(s)], u[Base(s) + 1]);
  }

  // ---------------------------------------------------------------------------
  // The request decision (the onRequest callback)
  // ---------------------------------------------------------------------------

  type FunctionCode = Uint8

  /** Modbus::FC_READ_INPUT_REGS */
  const FC_READ_INPUT_REGS: FunctionCode := 0x04

  /** The result codes the callback returns (EX_SUCCESS, EX_ILLEGAL_FUNCTION, EX_SLAVE_FAILURE). */
  datatype ResultCode = ExSuccess | ExIllegalFunction | ExSlaveFailure

  /** `now - since` on unsigned long: the difference reduced modulo 2^32. */
  function Elapsed(now: Uint32, since: Uint32): (d: Uint32)
    ensures d == (now - since) % TWO_TO_THE_32
  {
    if now >= since then now - since else now + TWO_TO_THE_32 - since
  }

  /** The callback's answer to a request with function code fc at time now. */
  function OnRequest(fc: FunctionCode, now: Uint32, lastGoodMillis: Uint32): (r: ResultCode)
    ensures fc != FC_READ_INPUT_REGS ==> r == ExIllegalFunction
    ensures fc == FC_READ_INPUT_REGS ==>
      (r == ExSlaveFailure <==> (now - lastGoodMillis) % TWO_TO_THE_32 > MODBUS_OFFLINE_TIMEOUT_MS)
    ensures r == ExSuccess <==>
      fc == FC_READ_INPUT_REGS && (now - lastGoodMillis) % TWO_TO_THE_32 <= MODBUS_OFFLINE_TIMEOUT_MS
  {
    if fc != FC_READ_INPUT_REGS then
      ExIllegalFunction
    else
      var recentGood := Elapsed(now, lastGoodMillis) <= MODBUS_OFFLINE_TIMEOUT_MS;
      if !recentGood then ExSlaveFailure else ExSuccess
  }

  /**
   The millis() counter wraps: at true time t (milliseconds since boot) it reads
   t mod 2^32. The unsigned difference of two readings is the true time between
   them whenever that is less than 2^32 ms (about 49.7 days).
   */
  lemma {:induction false} ElapsedAcrossWrap(t0: nat, d: nat)
    requires d < TWO_TO_THE_32
    ensures Elapsed((t0 + d) % TWO_TO_THE_32, t0 % TWO_TO_THE_32) == d
  {
    var m := TWO_TO_THE_32;
    var q, r := t0 / m, t0 % m;
    assert t0 == q * m + r;
    if r + d < m {
      assert t0 + d == q * m + (r + d);
      assert (t0 + d) % m == r + d;
    } else {
      assert t0 + d == (q + 1) * m + (r + d - m);
      assert (t0 + d) % m == r + d - m;
    }
  }

  /** So the staleness check compares the true age of the last online report with 30 s, across wrap-around. */
  lemma StaleCheckAcrossWrap(t0: nat, d: nat)
    requires d < TWO_TO_THE_32
    ensures OnRequest(FC_READ_INPUT_REGS, (t0 + d) % TWO_TO_THE_32, t0 % TWO_TO_THE_32)
      == if d <= MODBUS_OFFLINE_TIMEOUT_MS then ExSuccess else ExSlaveFailure
  {
    ElapsedAcrossWrap(t0, d);
  }

  /** Any other function code is refused, however fresh the data is. */
  lemma IllegalFunctionRegardlessOfFreshness(fc: FunctionCode, now: Uint32, last1: Uint32, last2: Uint32)
    requires fc != FC_READ_INPUT_REGS
    ensures OnRequest(fc, now, last1) == OnRequest(fc, now, last2) == ExIllegalFunction
  {
  }

  // ---------------------------------------------------------------------------
  // The slave's register table (the part of modbus-esp8266 the manager uses)
  // ---------------------------------------------------------------------------

  /**
   A register table overwritten with the words of t: a register that exists and
   has a word in t takes that word, every other register keeps its value, and no
   register is added.
   */
  function Overwrite(regs: map<Uint16, Uint16>, t: map<Uint16, Uint16>): map<Uint16, Uint16> {
    map a | a in regs :: if a in t then t[a] else regs[a]
  }

  /** mb.Ireg(offset, value): sets a register that exists; one that was never added is left alone. */
  function Ireg(regs: map<Uint16, Uint16>, offset: Uint16, value: Uint16): map<Uint16, Uint16> {
    if offset in regs then regs[offset := value] else regs
  }

  /** Overwriting never adds or removes a register. */
  lemma OverwriteKeys(regs: map<Uint16, Uint16>, t: map<Uint16, Uint16>)
    ensures Overwrite(regs, t).Keys == regs.Keys
  {
    forall a
      ensures a in Overwrite(regs, t) <==> a in regs
    {
    }
  }

  /** Overwriting with no words changes nothing. */
  lemma OverwriteNothing(regs: map<Uint16, Uint16>)
    ensures Overwrite(regs, map[]) == regs
  {
  }

  /** One more mb.Ireg after overwriting with t is overwriting with t extended by that word. */
  lemma IregAfterOverwrite(regs: map<Uint16, Uint16>, t: map<Uint16, Uint16>, a: Uint16, v: Uint16)
    ensures Ireg(Overwrite(regs, t), a, v) == Overwrite(regs, t[a := v])
  {
    var o, m := Overwrite(regs, t), Overwrite(regs, t[a := v]);
    OverwriteKeys(regs, t);
    OverwriteKeys(regs, t[a := v]);
    if a in regs {
      assert o[a := v] == m;
    } else {
      assert o == m;
    }
  }

  /** The two mb.Ireg calls of one slot, after overwriting with t, overwrite with t plus that slot's words. */
  lemma IregSlot(regs: map<Uint16, Uint16>, t: map<Uint16, Uint16>, base: Uint16, s: Slot, w: Uint32)
    requires base == Base(s)
    ensures Ireg(Ireg(Overwrite(regs, t), base, High(w)), base + 1, Low(w)) == Overwrite(regs, Put(t, s, w))
  {
    IregAfterOverwrite(regs, t, Base(s), High(w));
    IregAfterOverwrite(regs, t[Base(s) := High(w)], Base(s) + 1, Low(w));
  }

  /** Overwriting twice with tables on the same addresses leaves only the second one's words. */
  lemma OverwriteOverwrite(regs: map<Uint16, Uint16>, t: map<Uint16, Uint16>, u: map<Uint16, Uint16>)
    requires t.Keys == u.Keys
    ensures Overwrite(Overwrite(regs, t), u) == Overwrite(regs, u)
  {
    OverwriteKeys(regs, t);
    OverwriteKeys(Overwrite(regs, t), u);
    OverwriteKeys(regs, u);
  }

  /** Once every address of t is registered, overwriting with t is plain map union. */
  lemma OverwriteRegistered(regs: map<Uint16, Uint16>, t: map<Uint16, Uint16>)
    requires t.Keys <= regs.Keys
    ensures Overwrite(regs, t) == regs + t
  {
    OverwriteKeys(regs, t);
  }

  // ---------------------------------------------------------------------------
  // What an update does to the table
  // ---------------------------------------------------------------------------

  /**
   After an update every slot whose two registers exist holds the high word of
   the value's pattern at the base address and the low word after it, so that
   a master joining the two gets the pattern back exactly.
   */
  lemma UpdatedSlot(regs: map<Uint16, Uint16>, d: MeterData, fm: FloatMath, s: Slot)
    requires Base(s) in regs && Base(s) + 1 in regs
    ensures var r := Overwrite(regs, EncodeRegisters(d, fm));
      Base(s) in r && Base(s) + 1 in r
      && r[Base(s)] == High(fm.Bits(SlotValue(s, d, fm)))
      && r[Base(s) + 1] == Low(fm.Bits(SlotValue(s, d, fm)))
      && Join(r[Base(s)], r[Base(s) + 1]) == fm.Bits(SlotValue(s, d, fm))
  {
    EncodedSlot(s, d, fm);
    OverwriteKeys(regs, EncodeRegisters(d, fm));
  }

  /** A register outside the nine slots keeps its value across an update. */
  lemma UpdateLeavesOthers(regs: map<Uint16, Uint16>, d: MeterData, fm: FloatMath, a: Uint16)
    requires a in regs && a !in RegisterAddresses
    ensures a in Overwrite(regs, EncodeRegisters(d, fm))
    ensures Overwrite(regs, EncodeRegisters(d, fm))[a] == regs[a]
  {
    EncodedAddresses(d, fm);
  }

  /** Once every slot register exists, an update replaces exactly those 18 words by the encoding of the reading. */
  lemma UpdateWritesWholeTable(regs: map<Uint16, Uint16>, d: MeterData, fm: FloatMath)
    requires RegisterAddresses <= regs.Keys
    ensures Overwrite(regs, EncodeRegisters(d, fm)) == regs + EncodeRegisters(d, fm)
  {
    EncodedAddresses(d, fm);
    OverwriteRegistered(regs, EncodeRegisters(d, fm));
  }

  /** An update erases every trace of the reading the previous update wrote. */
  lemma UpdateForgetsEarlierReading(regs: map<Uint16, Uint16>, d: MeterData, e: MeterData, fm: FloatMath)
    ensures Overwrite(Overwrite(regs, EncodeRegisters(d, fm)), EncodeRegisters(e, fm))
      == Overwrite(regs, EncodeRegisters(e, fm))
  {
    EncodedAddresses(d, fm);
    EncodedAddresses(e, fm);
    OverwriteOverwrite(regs, EncodeRegisters(d, fm), EncodeRegisters(e, fm));
  }

  // ---------------------------------------------------------------------------
  // The ModbusManager object
  // ---------------------------------------------------------------------------

  /**
   mb.addIreg(offset, value, n): the registers offset .. offset+n-1 that do not
   exist yet are created with the given value, lowest first; a register that
   exists keeps its value.
   */
  function AddIreg(regs: map<Uint16, Uint16>, offset: Uint16, value: Uint16, n: nat): map<Uint16, Uint16>
    requires offset + n <= TWO_TO_THE_16
    decreases n
  {
    if n == 0 then regs
    else
      var r := AddIreg(regs, offset, value, n - 1);
      if offset + n - 1 in r then r else r[offset + n - 1 := value]
  }

  /** The table regs with the addresses S registered at 0, the registers of regs keeping their values. */
  function Registered(regs: map<Uint16, Uint16>, S: set<Uint16>): map<Uint16, Uint16> {
    map a | a in regs.Keys + S :: if a in regs then regs[a] else 0
  }

  /** addIreg(base, 0, 2) of one more slot registers that slot's window too. */
  lemma AddSlot(regs: map<Uint16, Uint16>, S: set<Uint16>, base: Uint16, s: Slot)
    requires base == Base(s)
    ensures AddIreg(Registered(regs, S), base, 0, 2) == Registered(regs, S + SlotPair(s))
  {
  }

  /** The nine addIreg calls of begin(), in its order, register exactly the 18 addresses at 0. */
  lemma AddIregSequenceRegisters(regs: map<Uint16, Uint16>)
    ensures AddIreg(AddIreg(AddIreg(AddIreg(AddIreg(AddIreg(AddIreg(AddIreg(AddIreg(regs,
      SDM120_REG_VOLTAGE, 0, 2), SDM120_REG_CURRENT, 0, 2), SDM120_REG_ACTIVE_POWER, 0, 2),
      SDM120_REG_APPARENT_POWER, 0, 2), SDM120_REG_REACTIVE_POWER, 0, 2), SDM120_REG_POWER_FACTOR, 0, 2),
      SDM120_REG_PHASE_ANGLE, 0, 2), SDM120_REG_FREQUENCY, 0, 2), SDM120_REG_TOTAL_ACTIVE_ENERGY, 0, 2)
      == Registered(regs, RegisterAddresses)
  {
    assert Registered(regs, {}) == regs;
    AddSlot(regs, {}, SDM120_REG_VOLTAGE, RegVoltage);
    assert {} + SlotPair(RegVoltage) == SlotPair(RegVoltage);
    var S := SlotPair(RegVoltage);
    AddSlot(regs, S, SDM120_REG_CURRENT, RegCurrent);
    S := S + SlotPair(RegCurrent);
    AddSlot(regs, S, SDM120_REG_ACTIVE_POWER, RegActivePower);
    S := S + SlotPair(RegActivePower);
    AddSlot(regs, S, SDM120_REG_APPARENT_POWER, RegApparentPower);
    S := S + SlotPair(RegApparentPower);
    AddSlot(regs, S, SDM120_REG_REACTIVE_POWER, RegReactivePower);
    S := S + SlotPair(RegReactivePower);
    AddSlot(regs, S, SDM120_REG_POWER_FACTOR, RegPowerFactor);
    S := S + SlotPair(RegPowerFactor);
    AddSlot(regs, S, SDM120_REG_PHASE_ANGLE, RegPhaseAngle);
    S := S + SlotPair(RegPhaseAngle);
    AddSlot(regs, S, SDM120_REG_FREQUENCY, RegFrequency);
    S := S + SlotPair(RegFrequency);
    AddSlot(regs, S, SDM120_REG_TOTAL_ACTIVE_ENERGY, RegTotalActiveEnergy);
  }

  /** Overwriting a table with words for exactly its addresses leaves just those words. */
  lemma OverwriteAll(regs: map<Uint16, Uint16>, t: map<Uint16, Uint16>)
    requires regs.Keys == t.Keys
    ensures Overwrite(regs, t) == t
  {
    OverwriteKeys(regs, t);
  }

  /**
   On a fresh slave begin() leaves exactly the 18 registered addresses, and an
   update then leaves nothing but the encoding of the reading.
   */
  lemma BeginThenUpdate(regs: map<Uint16, Uint16>, d: MeterData, fm: FloatMath)
    requires regs.Keys == RegisterAddresses
    ensures Overwrite(regs, EncodeRegisters(d, fm)) == EncodeRegisters(d, fm)
  {
    EncodedAddresses(d, fm);
    OverwriteAll(regs, EncodeRegisters(d, fm));
  }

  /**
   The nine addIreg(base, 0, 2) calls of begin(), made on the slave's table
   regs0: every register address is present afterwards, the ones registered
   before keep their values and the new ones hold 0.
   */
  method RegisterSlots(regs0: map<Uint16, Uint16>) returns (r: map<Uint16, Uint16>)
    ensures r.Keys == regs0.Keys + RegisterAddresses
    ensures forall a :: a in regs0 ==> r[a] == regs0[a]
    ensures forall a :: a in r && a !in regs0 ==> r[a] == 0
  {
    r := regs0;
    r := AddIreg(r, SDM120_REG_VOLTAGE, 0, 2);
    r := AddIreg(r, SDM120_REG_CURRENT, 0, 2);
    r := AddIreg(r, SDM120_REG_ACTIVE_POWER, 0, 2);
    r := AddIreg(r, SDM120_REG_APPARENT_POWER, 0, 2);
    r := AddIreg(r, SDM120_REG_REACTIVE_POWER, 0, 2);
    r := AddIreg(r, SDM120_REG_POWER_FACTOR, 0, 2);
    r := AddIreg(r, SDM120_REG_PHASE_ANGLE, 0, 2);
    r := AddIreg(r, SDM120_REG_FREQUENCY, 0, 2);
    r := AddIreg(r, SDM120_REG_TOTAL_ACTIVE_ENERGY, 0, 2);
    AddIregSequenceRegisters(regs0);
  }

  /**
   One slot's pair of mb.Ireg calls: the pattern goes through the float/word
   union, i[1] (the high word) to the window's base and i[0] (the low word) to
   the address after it. On a table that holds the words t over the slave's
   table, the result holds t with the slot written.
   */
  method WriteSlot(regs: map<Uint16, Uint16>, ghost before: map<Uint16, Uint16>, ghost t: map<Uint16, Uint16>,
                   base: Uint16, ghost s: Slot, w: Uint32) returns (r: map<Uint16, Uint16>)
    requires base == Base(s)
    requires regs == Overwrite(before, t)
    ensures r == Overwrite(before, Put(t, s, w))
  {
    var conv := Overlay(w);
    r := Ireg(regs, base, conv[1]);
    r := Ireg(r, base + 1, conv[0]);
    IregSlot(before, t, base, s, w);
  }

  /**
   The eighteen mb.Ireg calls of one update, two per slot in the writer's order,
   made on the slave's table regs0: every registered address of the encoding
   gets its word, every other address keeps its value.
   */
  method WriteReading(regs0: map<Uint16, Uint16>, data: MeterData, fm: FloatMath)
    returns (r: map<Uint16, Uint16>)
    ensures r == Overwrite(regs0, EncodeRegisters(data, fm))
  {
    // t holds the words written so far: r stays Overwrite(regs0, t)
    ghost var t: map<Uint16, Uint16> := map[];
    OverwriteNothing(regs0);
    r := regs0;

    r := WriteSlot(r, regs0, t, SDM120_REG_VOLTAGE, RegVoltage, fm.Bits(data.voltageV));
    t := Put(t, RegVoltage, fm.Bits(data.voltageV));
    r := WriteSlot(r, regs0, t, SDM120_REG_CURRENT, RegCurrent, fm.Bits(data.currentA));
    t := Put(t, RegCurrent, fm.Bits(data.currentA));
    r := WriteSlot(r, regs0, t, SDM120_REG_ACTIVE_POWER, RegActivePower, fm.Bits(data.powerW));
    t := Put(t, RegActivePower, fm.Bits(data.powerW));
    var apparentPower := ApparentPower(data);
    r := WriteSlot(r, regs0, t, SDM120_REG_APPARENT_POWER, RegApparentPower, fm.Bits(apparentPower));
    t := Put(t, RegApparentPower, fm.Bits(apparentPower));
    r := WriteSlot(r, regs0, t, SDM120_REG_REACTIVE_POWER, RegReactivePower, fm.Bits(ReactivePower(apparentPower, data.powerFactor, fm)));
    t := Put(t, RegReactivePower, fm.Bits(ReactivePower(apparentPower, data.powerFactor, fm)));
    r := WriteSlot(r, regs0, t, SDM120_REG_POWER_FACTOR, RegPowerFactor, fm.Bits(data.powerFactor));
    t := Put(t, RegPowerFactor, fm.Bits(data.powerFactor));
    r := WriteSlot(r, regs0, t, SDM120_REG_FREQUENCY, RegFrequency, fm.Bits(data.frequencyHz));
    t := Put(t, RegFrequency, fm.Bits(data.frequencyHz));
    r := WriteSlot(r, regs0, t, SDM120_REG_PHASE_ANGLE, RegPhaseAngle, fm.Bits(PhaseAngle(data.powerFactor, fm)));
    t := Put(t, RegPhaseAngle, fm.Bits(PhaseAngle(data.powerFactor, fm)));
    r := WriteSlot(r, regs0, t, SDM120_REG_TOTAL_ACTIVE_ENERGY, RegTotalActiveEnergy, fm.Bits(data.energyKwh));
    t := Put(t, RegTotalActiveEnergy, fm.Bits(data.energyKwh));
    EncodeRegistersSlotBySlot(data, fm);
  }

  class ModbusManager {
    /** Time (millis()) of the last update at which the data source reported online. */
    var lastGoodMillis: Uint32
    /** The input registers of the Modbus slave (mb's register space). */
    var iregs: map<Uint16, Uint16>

    /** A fresh manager: lastGoodMillis is 0 and no register exists yet. */
    constructor ()
      ensures lastGoodMillis == 0 && iregs == map[]
    {
      lastGoodMillis := 0;
      iregs := map[];
    }

    /**
     begin(): lastGoodMillis starts at the current time, and both words of the
     nine slots are registered with value 0; a register that already exists
     keeps its value and no other register changes. Serial and slave setup are
     not modelled.
     */
    method Begin(now: Uint32)
      modifies this
      ensures lastGoodMillis == now
      ensures iregs.Keys == old(iregs).Keys + RegisterAddresses
      ensures forall a :: a in old(iregs) ==> iregs[a] == old(iregs)[a]
      ensures forall a :: a in iregs && a !in old(iregs) ==> iregs[a] == 0
    {
      lastGoodMillis := now;
      iregs := RegisterSlots(iregs);
    }

    /**
     updateModbusRegisters(): `data` and `online` are what the active source's
     getCurrentData() and isOnline() return. The freshness stamp moves to now only
     when the source is online; every existing register of the nine slots gets
     the encoding of the reading, and no other register changes.
     */
    method UpdateModbusRegisters(data: MeterData, online: bool, now: Uint32, fm: FloatMath)
      modifies this
      ensures lastGoodMillis == if online then now else old(lastGoodMillis)
      ensures iregs == Overwrite(old(iregs), EncodeRegisters(data, fm))
    {
      if online {
        lastGoodMillis := now;
      }
      iregs := WriteReading(iregs, data, fm);
    }

    /** The callback installed by begin(), answering a request with function code fc at time now. */
    function Respond(fc: FunctionCode, now: Uint32): (r: ResultCode)
      reads this
      ensures r == ExSuccess <==>
        fc == FC_READ_INPUT_REGS && (now - lastGoodMillis) % TWO_TO_THE_32 <= MODBUS_OFFLINE_TIMEOUT_MS
    {
      OnRequest(fc, now, lastGoodMillis)
    }
  }

  /** Requests within 30 s (of true time) after begin() are served even if the source was never online. */
  lemma StartupGrace(t0: nat, d: nat)
    requires d <= MODBUS_OFFLINE_TIMEOUT_MS
    ensures OnRequest(FC_READ_INPUT_REGS, (t0 + d) % TWO_TO_THE_32, t0 % TWO_TO_THE_32) == ExSuccess
  {
    StaleCheckAcrossWrap(t0, d);
  }
}
