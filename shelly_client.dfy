/**
 The Shelly Gen1 source (Shelly 3EM): one GET of /status; the first entry of
 its "emeters" array is the reading, with defaults for missing members and a
 range check that decides whether the source is online.
 */
module Shelly {
  import opened Wrappers
  import opened Words
  import opened Http
  import opened DataManager
  import opened Configuration

  /** The device address: the Shelly URL when set, the Home Assistant URL otherwise. */
  function DeviceUrl(shellyUrl: string, config: Config): (url: string)
    ensures shellyUrl != "" ==> url == shellyUrl
    ensures shellyUrl == "" ==> url == CString(config.homeAssistantUrl)
    ensures url == "" <==> shellyUrl == "" && CStrLen(config.homeAssistantUrl) == 0
  {
    if shellyUrl != "" then shellyUrl else CString(config.homeAssistantUrl)
  }

  /** GET <url>/status, no header. The URL is used as configured, a trailing '/' included. */
  function StatusRequest(url: string): (q: Request)
    ensures q.bearer.None? && EndsWith(q.url, "/status")
    ensures |url| <= |q.url| && q.url[..|url|] == url
  {
    Get(url + "/status", None)
  }

  /**
   The meter object of a /status answer: the first element of "emeters", when
   the answer is 200, parses, and has a non-empty array under that key.
   */
  function FirstMeter(resp: Response): (m: Option<Json>)
    ensures m.Some? <==>
      resp.code == HTTP_CODE_OK && resp.body.Parsed? && ContainsKey(resp.body.doc, "emeters")
      && Member(resp.body.doc, "emeters").Arr? && |Member(resp.body.doc, "emeters").items| > 0
    ensures m.Some? ==> m.value == Member(resp.body.doc, "emeters").items[0]
  {
    if resp.code != HTTP_CODE_OK then None
    else match resp.body
      case ParseError(_) => None
      case Parsed(doc) =>
        if !ContainsKey(doc, "emeters") || !Member(doc, "emeters").Arr? then None
        else if |Member(doc, "emeters").items| == 0 then None
        else Some(Member(doc, "emeters").items[0])
  }

  /** Energy in kWh: "total" in Wh if present, else "energy" as it is, else 0. */
  function MeterEnergy(m: Json): real {
    if ContainsKey(m, "total") then AsFloat(Member(m, "total")) / 1000.0
    else if ContainsKey(m, "energy") then AsFloat(Member(m, "energy"))
    else 0.0
  }

  /** The reading taken from one meter object: missing members are 0, a missing frequency is 50 Hz. */
  function MeterReading(m: Json): MeterData {
    MeterData(
      FloatOr(m, "power", 0.0),
      MeterEnergy(m),
      FloatOr(m, "voltage", 0.0),
      FloatOr(m, "current", 0.0),
      FloatOr(m, "frequency", 50.0),
      FloatOr(m, "pf", 0.0))
  }

  /** The range check of the fetch. */
  predicate InRange(d: MeterData) {
    !(d.voltageV <= 0.0 || d.currentA < 0.0 || d.powerW < 0.0)
  }

  /** The state after fetchAllData. */
  function Fetch(s: SourceState, config: Config, shellyUrl: string, wifiConnected: bool,
                 http: Request -> Response): SourceState
  {
    if !wifiConnected || DeviceUrl(shellyUrl, config) == "" then s.(bOnline := false)
    else match FirstMeter(http(StatusRequest(DeviceUrl(shellyUrl, config))))
      case None => s.(bOnline := false)
      case Some(m) =>
        var d := MeterReading(m);
        s.(currentData := d, bOnline := InRange(d))
  }

  /**
   A fetch ends online exactly when a meter object was obtained and its reading
   has a positive voltage and non-negative current and power. The diagnostics
   are never written.
   */
  lemma FetchOnlineIff(s: SourceState, config: Config, shellyUrl: string, wifiConnected: bool,
                       http: Request -> Response)
    ensures var t := Fetch(s, config, shellyUrl, wifiConnected, http);
      var url := DeviceUrl(shellyUrl, config);
      (t.bOnline <==> wifiConnected && url != "" && FirstMeter(http(StatusRequest(url))).Some?
                      && MeterReading(FirstMeter(http(StatusRequest(url))).value).voltageV > 0.0
                      && MeterReading(FirstMeter(http(StatusRequest(url))).value).currentA >= 0.0
                      && MeterReading(FirstMeter(http(StatusRequest(url))).value).powerW >= 0.0)
      && t.lastHttpCode == s.lastHttpCode && t.lastError == s.lastError && t.lastSuccessTs == s.lastSuccessTs
  {
  }

  /** Every way of not reaching a meter object leaves the stored reading as it was. */
  lemma NoMeterKeepsReading(s: SourceState, config: Config, shellyUrl: string, wifiConnected: bool,
                            http: Request -> Response)
    requires !wifiConnected || DeviceUrl(shellyUrl, config) == ""
      || FirstMeter(http(StatusRequest(DeviceUrl(shellyUrl, config)))).None?
    ensures Fetch(s, config, shellyUrl, wifiConnected, http) == s.(bOnline := false)
  {
  }

  /** Once a meter object is found its values are stored, also when the range check refuses them. */
  lemma RejectedReadingStillStored(s: SourceState, config: Config, shellyUrl: string,
                                   http: Request -> Response)
    requires DeviceUrl(shellyUrl, config) != ""
    requires FirstMeter(http(StatusRequest(DeviceUrl(shellyUrl, config)))).Some?
    ensures var t := Fetch(s, config, shellyUrl, true, http);
      t.currentData == MeterReading(FirstMeter(http(StatusRequest(DeviceUrl(shellyUrl, config)))).value)
      && (t.bOnline <==> InRange(t.currentData))
  {
  }

  /** An object without any of the members reads as 0 everywhere except 50 Hz, and is refused. */
  lemma EmptyMeterDefaults()
    ensures MeterReading(Obj(map[])) == MeterData(0.0, 0.0, 0.0, 0.0, 50.0, 0.0)
    ensures !InRange(MeterReading(Obj(map[])))
  {
  }

  /** "total" wins over "energy": the Wh counter is used whenever it is present. */
  lemma TotalBeforeEnergy(fields: map<string, Json>, wh: real, kwh: real)
    ensures MeterEnergy(Obj(fields["total" := Num(wh)]["energy" := Num(kwh)])) == wh / 1000.0
    ensures "total" !in fields ==> MeterEnergy(Obj(fields["energy" := Num(kwh)])) == kwh
  {
    var f := fields["total" := Num(wh)]["energy" := Num(kwh)];
    assert "total" in f && f["total"] == Num(wh);
  }

  /** {power: 150, voltage: 230, current: 0.65, total: 12345} is 12.345 kWh at 50 Hz, PF 0, online. */
  lemma ExampleStatus(s: SourceState, config: Config, shellyUrl: string, http: Request -> Response)
    requires shellyUrl != ""
    requires http(StatusRequest(shellyUrl)) == Response(200, Parsed(Obj(map["emeters" := Arr([
      Obj(map["power" := Num(150.0), "voltage" := Num(230.0), "current" := Num(0.65), "total" := Num(12345.0)])])])))
    ensures var t := Fetch(s, config, shellyUrl, true, http);
      t.currentData == MeterData(150.0, 12.345, 230.0, 0.65, 50.0, 0.0) && t.bOnline
  {
    var m := Obj(map["power" := Num(150.0), "voltage" := Num(230.0), "current" := Num(0.65), "total" := Num(12345.0)]);
    assert FirstMeter(http(StatusRequest(shellyUrl))) == Some(m);
    assert MeterReading(m) == MeterData(150.0, 12.345, 230.0, 0.65, 50.0, 0.0);
  }

  class ShellyClient {
    var currentData: MeterData
    var bOnline: bool
    var lastHttpCode: int
    var lastError: string
    var lastSuccessTs: Uint32

    function State(): SourceState
      reads this
    {
      SourceState(currentData, bOnline, lastHttpCode, lastError, lastSuccessTs)
    }

    constructor ()
      ensures State() == InitialState
    {
      currentData := FreshMeterData;
      bOnline := false;
      lastHttpCode := 0;
      lastError := "";
      lastSuccessTs := 0;
    }

    /** fetchAllData with the Wi-Fi status, the Shelly URL setting and the HTTP transport as inputs. */
    method FetchAllData(config: Config, shellyUrl: string, wifiConnected: bool, http: Request -> Response)
      modifies this
      ensures State() == Fetch(old(State()), config, shellyUrl, wifiConnected, http)
    {
      bOnline := false;
      if !wifiConnected {
        return;
      }
      var url := shellyUrl;
      if url == "" {
        url := CString(config.homeAssistantUrl);
      }
      if url == "" {
        return;
      }
      var api := url + "/status";
      var resp := http(Get(api, None));
      if resp.code != HTTP_CODE_OK {
        return;
      }
      if resp.body.ParseError? {
        return;
      }
      var doc := resp.body.doc;
      if !ContainsKey(doc, "emeters") || !Member(doc, "emeters").Arr? {
        return;
      }
      var emeters := Member(doc, "emeters").items;
      if |emeters| == 0 {
        return;
      }
      var m := emeters[0];

      var d := currentData;
      d := d.(powerW := FloatOr(m, "power", 0.0));
      if ContainsKey(m, "total") {
        d := d.(energyKwh := AsFloat(Member(m, "total")) / 1000.0);
      } else if ContainsKey(m, "energy") {
        d := d.(energyKwh := AsFloat(Member(m, "energy")));
      } else {
        d := d.(energyKwh := 0.0);
      }
      d := d.(voltageV := FloatOr(m, "voltage", 0.0));
      d := d.(currentA := FloatOr(m, "current", 0.0));
      d := d.(frequencyHz := FloatOr(m, "frequency", 50.0));
      d := d.(powerFactor := FloatOr(m, "pf", 0.0));

      currentData := d;

      if d.voltageV <= 0.0 || d.currentA < 0.0 || d.powerW < 0.0 {
        return;
      }
      bOnline := true;
    }
  }
}
