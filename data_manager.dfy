/**
 The record every measurement source publishes (MeterData) and the state the
 DataManager base class gives each source: the current reading, the online
 flag and the diagnostic fields the client headers declare.
 Floats are modelled as reals, without rounding.
 */
module DataManager {
  import opened Words

  /** The six quantities of a reading, in the order MeterData declares them. */
  datatype Quantity = Power | Energy | Voltage | Current | Frequency | PowerFactor

  datatype MeterData = MeterData(
    powerW: real,
    energyKwh: real,
    voltageV: real,
    currentA: real,
    frequencyHz: real,
    powerFactor: real)
  {
    /** The field that holds quantity q. */
    function Field(q: Quantity): real {
      match q
      case Power => powerW
      case Energy => energyKwh
      case Voltage => voltageV
      case Current => currentA
      case Frequency => frequencyHz
      case PowerFactor => powerFactor
    }

    /** This reading with the field of q replaced by v (an assignment through a field pointer). */
    function WithField(q: Quantity, v: real): (d: MeterData)
      ensures d.Field(q) == v
      ensures forall p :: p != q ==> d.Field(p) == Field(p)
    {
      match q
      case Power => this.(powerW := v)
      case Energy => this.(energyKwh := v)
      case Voltage => this.(voltageV := v)
      case Current => this.(currentA := v)
      case Frequency => this.(frequencyHz := v)
      case PowerFactor => this.(powerFactor := v)
    }
  }

  /** A default-constructed MeterData: every field 0.0f. */
  const FreshMeterData: MeterData := MeterData(0.0, 0.0, 0.0, 0.0, 0.0, 0.0)

  /** What a source exposes: getCurrentData(), isOnline() and the diagnostic getters. */
  datatype SourceState = SourceState(
    currentData: MeterData,
    bOnline: bool,
    lastHttpCode: int,
    lastError: string,
    lastSuccessTs: Uint32)

  /** A freshly constructed source: zero reading, offline, diagnostics at their defaults. */
  const InitialState: SourceState := SourceState(FreshMeterData, false, 0, "", 0)

  /** Two readings are equal exactly when they agree on every quantity. */
  lemma ReadingsEqualByField(d: MeterData, e: MeterData)
    requires forall q :: d.Field(q) == e.Field(q)
    ensures d == e
  {
    assert d.Field(Power) == e.Field(Power);
    assert d.Field(Energy) == e.Field(Energy);
    assert d.Field(Voltage) == e.Field(Voltage);
    assert d.Field(Current) == e.Field(Current);
    assert d.Field(Frequency) == e.Field(Frequency);
    assert d.Field(PowerFactor) == e.Field(PowerFactor);
  }

  /** Every quantity of a fresh reading is 0.0. */
  lemma FreshMeterDataIsZero(q: Quantity)
    ensures FreshMeterData.Field(q) == 0.0
  {
  }
}
