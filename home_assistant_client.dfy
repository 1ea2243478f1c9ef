/**
 The Home Assistant source: one REST state query per quantity, the power-factor
 correction and the ordered plausibility checks that decide whether the source
 is online.
 */
module HomeAssistant {
  import opened Wrappers
  import opened Words
  import opened Http
  import opened DataManager
  import opened Configuration

  /** The entity table of fetchAllData, in the order it is walked. */
  const QUANTITIES: seq<Quantity> := [Power, Energy, Voltage, Current, Frequency, PowerFactor]

  /** The configured entity id for quantity q. */
  function EntityId(config: Config, q: Quantity): string {
    match q
    case Power => CString(config.entityPower)
    case Energy => CString(config.entityEnergy)
    case Voltage => CString(config.entityVoltage)
    case Current => CString(config.entityCurrent)
    case Frequency => CString(config.entityFrequency)
    case PowerFactor => CString(config.entityPowerFactor)
  }

  /** GET <base>/api/states/<entity> with the long-lived token as bearer. */
  function StateRequest(baseUrl: string, token: string, entityId: string): (q: Request)
    ensures q.bearer == Some(token)
    ensures |baseUrl| <= |q.url| && q.url[..|baseUrl|] == baseUrl
    ensures EndsWith(q.url, "/api/states/" + entityId)
  {
    Get(baseUrl + "/api/states/" + entityId, Some(token))
  }

  /**
   getHAEntityState: the entity's "state" string converted with toFloat. It is
   0.0 when the entity id is empty (no request is made), when the answer is not
   200, when the payload does not parse, or when it has no string "state".
   */
  function EntityState(baseUrl: string, token: string, entityId: string,
                       http: Request -> Response, toFloat: string -> real): real
  {
    if entityId == "" then 0.0
    else
      var resp := http(StateRequest(baseUrl, token, entityId));
      if resp.code != HTTP_CODE_OK then 0.0
      else match resp.body
        case ParseError(_) => 0.0
        case Parsed(doc) =>
          match StringMember(doc, "state")
          case Some(s) => toFloat(s)
          case None => 0.0
  }

  /** The four fallbacks of getHAEntityState give 0.0; otherwise the state string is converted. */
  lemma EntityStateCases(baseUrl: string, token: string, entityId: string,
                         http: Request -> Response, toFloat: string -> real)
    ensures entityId == "" ==> EntityState(baseUrl, token, entityId, http, toFloat) == 0.0
    ensures entityId != "" ==>
      var r := EntityState(baseUrl, token, entityId, http, toFloat);
      var resp := http(StateRequest(baseUrl, token, entityId));
      (resp.code != HTTP_CODE_OK ==> r == 0.0)
      && (resp.code == HTTP_CODE_OK && resp.body.ParseError? ==> r == 0.0)
      && (resp.code == HTTP_CODE_OK && resp.body.Parsed? && StringMember(resp.body.doc, "state").None? ==> r == 0.0)
      && (resp.code == HTTP_CODE_OK && resp.body.Parsed? && StringMember(resp.body.doc, "state").Some?
          ==> r == toFloat(StringMember(resp.body.doc, "state").value))
  {
  }

  /** The six values the fetch loop stores, each queried for its own entity. */
  function RawReading(config: Config, http: Request -> Response, toFloat: string -> real): (d: MeterData)
    ensures forall q :: d.Field(q) == EntityState(CString(config.homeAssistantUrl),
      CString(config.homeAssistantToken), EntityId(config, q), http, toFloat)
  {
    var url := CString(config.homeAssistantUrl);
    var token := CString(config.homeAssistantToken);
    MeterData(
      EntityState(url, token, EntityId(config, Power), http, toFloat),
      EntityState(url, token, EntityId(config, Energy), http, toFloat),
      EntityState(url, token, EntityId(config, Voltage), http, toFloat),
      EntityState(url, token, EntityId(config, Current), http, toFloat),
      EntityState(url, token, EntityId(config, Frequency), http, toFloat),
      EntityState(url, token, EntityId(config, PowerFactor), http, toFloat))
  }

  /** A power factor above 1 is taken as a percentage. */
  function CorrectPowerFactor(pf: real): real {
    if pf > 1.0 then pf / 100.0 else pf
  }

  /** The corrected factor is in [0, 1] exactly when the raw one is in [0, 100]. */
  lemma CorrectedPowerFactorInRange(pf: real)
    ensures 0.0 <= CorrectPowerFactor(pf) <= 1.0 <==> 0.0 <= pf <= 100.0
    ensures pf <= 1.0 ==> CorrectPowerFactor(pf) == pf
    ensures pf > 1.0 ==> CorrectPowerFactor(pf) * 100.0 == pf
  {
  }

  /** A raw 95 becomes 0.95 and is accepted; a raw 150 becomes 1.5 and is refused. */
  lemma PowerFactorExamples()
    ensures CorrectPowerFactor(95.0) == 0.95 && 0.0 <= CorrectPowerFactor(95.0) <= 1.0
    ensures CorrectPowerFactor(150.0) == 1.5 && !(CorrectPowerFactor(150.0) <= 1.0)
  {
  }

  /** The reading after the fetch loop and the power-factor correction. */
  function CorrectedReading(config: Config, http: Request -> Response, toFloat: string -> real): MeterData {
    var d := RawReading(config, http, toFloat);
    d.(powerFactor := CorrectPowerFactor(d.powerFactor))
  }

  /** The check of the validation table for quantity q. */
  predicate Passes(q: Quantity, d: MeterData) {
    match q
    case Power => d.powerW > 0.0
    case Energy => d.energyKwh >= 0.0
    case Voltage => d.voltageV > 0.0
    case Current => d.currentA > 0.0
    case Frequency => d.frequencyHz > 0.0
    case PowerFactor => 0.0 <= d.powerFactor <= 1.0
  }

  /** A reading the source publishes as online. */
  predicate Plausible(d: MeterData) {
    d.powerW > 0.0 && d.energyKwh >= 0.0 && d.voltageV > 0.0
    && d.currentA > 0.0 && d.frequencyHz > 0.0 && 0.0 <= d.powerFactor <= 1.0
  }

  /** Walking the validation table without an early exit is exactly plausibility. */
  lemma PassesEveryCheck(d: MeterData)
    ensures Plausible(d) <==> forall i :: 0 <= i < |QUANTITIES| ==> Passes(QUANTITIES[i], d)
  {
    if forall i :: 0 <= i < |QUANTITIES| ==> Passes(QUANTITIES[i], d) {
      assert Passes(QUANTITIES[0], d) && Passes(QUANTITIES[1], d) && Passes(QUANTITIES[2], d);
      assert Passes(QUANTITIES[3], d) && Passes(QUANTITIES[4], d) && Passes(QUANTITIES[5], d);
    }
  }

  /** The first check that fails, in table order, if any. */
  function FirstFailure(d: MeterData): (f: Option<Quantity>)
    ensures f.None? <==> Plausible(d)
    ensures f.Some? ==> !Passes(f.value, d)
    ensures f.Some? ==> forall i :: 0 <= i < |QUANTITIES| && QUANTITIES[i] == f.value ==>
      forall j :: 0 <= j < i ==> Passes(QUANTITIES[j], d)
  {
    if !Passes(Power, d) then Some(Power)
    else if !Passes(Energy, d) then Some(Energy)
    else if !Passes(Voltage, d) then Some(Voltage)
    else if !Passes(Current, d) then Some(Current)
    else if !Passes(Frequency, d) then Some(Frequency)
    else if !Passes(PowerFactor, d) then Some(PowerFactor)
    else None
  }

  /** The state after fetchAllData. */
  function Fetch(s: SourceState, config: Config, wifiConnected: bool,
                 http: Request -> Response, toFloat: string -> real): SourceState
  {
    if !wifiConnected || CString(config.homeAssistantUrl) == "" || CString(config.homeAssistantToken) == "" then
      s.(bOnline := false)
    else
      var d := CorrectedReading(config, http, toFloat);
      s.(currentData := d, bOnline := Plausible(d))
  }

  /**
   A fetch ends online exactly when Wi-Fi is up, URL and token are set, and the
   corrected reading passes all six checks; it never touches the diagnostics.
   */
  lemma FetchOnlineIff(s: SourceState, config: Config, wifiConnected: bool,
                       http: Request -> Response, toFloat: string -> real)
    ensures var t := Fetch(s, config, wifiConnected, http, toFloat);
      (t.bOnline <==> wifiConnected && CString(config.homeAssistantUrl) != "" && CString(config.homeAssistantToken) != ""
                      && FirstFailure(CorrectedReading(config, http, toFloat)).None?)
      && t.lastHttpCode == s.lastHttpCode && t.lastError == s.lastError && t.lastSuccessTs == s.lastSuccessTs
  {
  }

  /** Without Wi-Fi, URL or token nothing is fetched: the reading stays and the source is offline. */
  lemma EarlyExitKeepsReading(s: SourceState, config: Config, wifiConnected: bool,
                              http: Request -> Response, toFloat: string -> real)
    requires !wifiConnected || CString(config.homeAssistantUrl) == "" || CString(config.homeAssistantToken) == ""
    ensures Fetch(s, config, wifiConnected, http, toFloat) == s.(bOnline := false)
  {
  }

  /**
   Once a fetch gets past the guards the new values replace the stored reading,
   whether or not they are plausible: a rejected reading is still published.
   */
  lemma RejectedReadingStillStored(s: SourceState, config: Config,
                                   http: Request -> Response, toFloat: string -> real)
    requires CString(config.homeAssistantUrl) != "" && CString(config.homeAssistantToken) != ""
    ensures var t := Fetch(s, config, true, http, toFloat);
      t.currentData == CorrectedReading(config, http, toFloat)
      && (t.bOnline <==> Plausible(t.currentData))
  {
  }

  /** With no power entity configured the power is 0.0, so the reading is always refused. */
  lemma EmptyPowerEntityRejected(s: SourceState, config: Config, wifiConnected: bool,
                                 http: Request -> Response, toFloat: string -> real)
    requires CStrLen(config.entityPower) == 0
    ensures !Fetch(s, config, wifiConnected, http, toFloat).bOnline
  {
    var d := RawReading(config, http, toFloat);
    assert d.Field(Power) == d.powerW;
  }

  /** The fetch loop: every entity's state, stored through the table of field pointers. */
  method FetchEntities(d0: MeterData, config: Config, url: string, token: string,
                       http: Request -> Response, toFloat: string -> real) returns (d: MeterData)
    requires url == CString(config.homeAssistantUrl) && token == CString(config.homeAssistantToken)
    ensures d == RawReading(config, http, toFloat)
  {
    ghost var raw := RawReading(config, http, toFloat);
    d := d0;
    for i := 0 to |QUANTITIES|
      invariant forall q :: q in QUANTITIES[..i] ==> d.Field(q) == raw.Field(q)
    {
      var q := QUANTITIES[i];
      assert QUANTITIES[..i + 1] == QUANTITIES[..i] + [q];
      d := d.WithField(q, EntityState(url, token, EntityId(config, q), http, toFloat));
    }
    assert QUANTITIES[..|QUANTITIES|] == QUANTITIES;
    ReadingsEqualByField(d, raw);
  }

  /** The validation loop: walk the checks in order and stop at the first failure. */
  method Validate(d: MeterData) returns (ok: bool)
    ensures ok <==> Plausible(d)
  {
    PassesEveryCheck(d);
    for i := 0 to |QUANTITIES|
      invariant forall j :: 0 <= j < i ==> Passes(QUANTITIES[j], d)
    {
      if !Passes(QUANTITIES[i], d) {
        return false;
      }
    }
    return true;
  }

  class HomeAssistantClient {
    var currentData: MeterData
    var bOnline: bool
    var lastHttpCode: int
    var lastError: string
    var lastSuccessTs: Uint32

    /** What the object exposes through the DataManager interface and the diagnostic getters. */
    function State(): SourceState
      reads this
    {
      SourceState(currentData, bOnline, lastHttpCode, lastError, lastSuccessTs)
    }

    constructor ()
      ensures State() == InitialState
    {
      currentData := FreshMeterData;
      bOnline := false;
      lastHttpCode := 0;
      lastError := "";
      lastSuccessTs := 0;
    }

    /** fetchAllData with the Wi-Fi status and the HTTP transport as inputs. */
    method FetchAllData(config: Config, wifiConnected: bool,
                        http: Request -> Response, toFloat: string -> real)
      modifies this
      ensures State() == Fetch(old(State()), config, wifiConnected, http, toFloat)
    {
      bOnline := false;
      if !wifiConnected {
        return;
      }
      var url := CString(config.homeAssistantUrl);
      var token := CString(config.homeAssistantToken);
      if url == "" || token == "" {
        return;
      }

      var d := FetchEntities(currentData, config, url, token, http, toFloat);
      currentData := d;

      if currentData.powerFactor > 1.0 {
        currentData := currentData.(powerFactor := currentData.powerFactor / 100.0);
      }

      var ok := Validate(currentData);
      if !ok {
        return;
      }
      bOnline := true;
    }
  }
}
