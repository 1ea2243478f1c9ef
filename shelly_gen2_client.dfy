/**
 The Shelly Gen2/Gen3 source (Shelly Pro 3EM and friends, RPC API): a status
 request to the three-phase endpoint with a fall back to the single-phase one,
 detection of the profile from the answer, the phase selected by the channel,
 an optional energy-counter request, and diagnostics for every outcome.
 */
module ShellyGen2 {
  import opened Wrappers
  import opened Words
  import opened Http
  import opened DataManager

  const ERR_WIFI: string := "WiFi not connected"
  const ERR_NO_URL: string := "Shelly URL not configured"
  const ERR_VOLTAGE: string := "invalid voltage"

  /** The URL with one trailing '/' removed, if it has one. */
  function TrimTrailingSlash(url: string): (r: string)
    ensures EndsWith(url, "/") ==> r + "/" == url
    ensures !EndsWith(url, "/") ==> r == url
  {
    if EndsWith(url, "/") then url[..|url| - 1] else url
  }

  /** Only one slash goes: "http://h//" becomes "http://h/". */
  lemma TrimsOneSlashOnly()
    ensures TrimTrailingSlash("http://h//") == "http://h/"
    ensures TrimTrailingSlash("http://h") == "http://h"
  {
    assert EndsWith("http://h//", "/");
    assert !EndsWith("http://h", "/");
  }

  /** The configured channel clamped to the phases 0..2. */
  function ClampChannel(c: int): (r: int)
    ensures 0 <= r <= 2
    ensures 0 <= c <= 2 ==> r == c
    ensures c < 0 ==> r == 0
    ensures c > 2 ==> r == 2
  {
    if c < 0 then 0 else if c > 2 then 2 else c
  }

  function EmStatusRequest(url: string): Request {
    Get(url + "/rpc/EM.GetStatus?id=0", None)
  }

  function Em1StatusRequest(url: string, channel: nat): Request {
    Get(url + "/rpc/EM1.GetStatus?id=" + NatToString(channel), None)
  }

  function EnergyRequest(url: string, isTriphase: bool, channel: nat): Request {
    if isTriphase then Get(url + "/rpc/EMData.GetStatus?id=0", None)
    else Get(url + "/rpc/EM1Data.GetStatus?id=" + NatToString(channel), None)
  }

  /** The two status endpoints, and the two energy endpoints, are distinct requests. */
  lemma EndpointsDistinct(url: string, channel: nat)
    ensures EmStatusRequest(url) != Em1StatusRequest(url, channel)
    ensures EnergyRequest(url, true, channel) != EnergyRequest(url, false, channel)
  {
    var a := EmStatusRequest(url).url;
    var b := Em1StatusRequest(url, channel).url;
    assert a[|url| + 7] == '.' && b[|url| + 7] == '1';
    var c := EnergyRequest(url, true, channel).url;
    var e := EnergyRequest(url, false, channel).url;
    assert c[|url| + 7] == 'D' && e[|url| + 7] == '1';
  }

  /**
   The profile after looking at the answer: a phase-A voltage means three-phase,
   otherwise a plain voltage means single-phase, otherwise the guess made from
   the endpoint that answered stands.
   */
  function DetectTriphase(doc: Json, guess: bool): (tri: bool)
    ensures ContainsKey(doc, "a_voltage") ==> tri
    ensures !ContainsKey(doc, "a_voltage") && ContainsKey(doc, "voltage") ==> !tri
    ensures !ContainsKey(doc, "a_voltage") && !ContainsKey(doc, "voltage") ==> tri == guess
  {
    if ContainsKey(doc, "a_voltage") then true
    else if ContainsKey(doc, "voltage") then false
    else guess
  }

  /** The key prefix of the phase a channel selects. */
  function PhasePrefix(channel: int): string {
    match channel
    case 0 => "a_"
    case 1 => "b_"
    case 2 => "c_"
    case _ => "a_"
  }

  /** Keys of the three-phase answer carry the phase prefix; those of the single-phase answer none. */
  function KeyPrefix(isTriphase: bool, channel: int): string {
    if isTriphase then PhasePrefix(channel) else ""
  }

  /** The reading of the status answer: missing values are 0, a missing frequency 50 Hz; energy starts at 0. */
  function StatusReading(doc: Json, prefix: string): MeterData {
    MeterData(
      FloatOr(doc, prefix + "act_power", 0.0),
      0.0,
      FloatOr(doc, prefix + "voltage", 0.0),
      FloatOr(doc, prefix + "current", 0.0),
      FloatOr(doc, prefix + "freq", 50.0),
      FloatOr(doc, prefix + "pf", 0.0))
  }

  /**
   The energy after the counter request: total_act_energy, else total_act, in
   Wh converted to kWh; any failure keeps the value it had.
   */
  function EnergyAfter(resp: Response, energy: real): (e: real)
    ensures resp.code != HTTP_CODE_OK || resp.body.ParseError? ==> e == energy
  {
    if resp.code != HTTP_CODE_OK then energy
    else match resp.body
      case ParseError(_) => energy
      case Parsed(doc) =>
        if ContainsKey(doc, "total_act_energy") then AsFloat(Member(doc, "total_act_energy")) / 1000.0
        else if ContainsKey(doc, "total_act") then AsFloat(Member(doc, "total_act")) / 1000.0
        else energy
  }

  /**
   On a parsed 200 answer total_act_energy wins over total_act, each in Wh and
   converted to kWh; with neither member the energy keeps the value it had.
   */
  lemma EnergyPreference(fields: map<string, Json>, wh: real, act: real, energy: real)
    ensures EnergyAfter(Response(HTTP_CODE_OK, Parsed(Obj(fields["total_act_energy" := Num(wh)]["total_act" := Num(act)]))), energy)
      == wh / 1000.0
    ensures "total_act_energy" !in fields ==>
      EnergyAfter(Response(HTTP_CODE_OK, Parsed(Obj(fields["total_act" := Num(act)]))), energy) == act / 1000.0
    ensures "total_act_energy" !in fields && "total_act" !in fields ==>
      EnergyAfter(Response(HTTP_CODE_OK, Parsed(Obj(fields))), energy) == energy
  {
    var f := fields["total_act_energy" := Num(wh)]["total_act" := Num(act)];
    assert "total_act_energy" in f && f["total_act_energy"] == Num(wh);
  }

  /** What happens once a status endpoint answered 200 (s already holds that code). */
  function Measure(s: SourceState, url: string, channel: nat, resp: Response, guess: bool,
                   http: Request -> Response, now: Uint32): SourceState
  {
    match resp.body
    case ParseError(reason) => s.(lastError := "JSON parse error: " + reason)
    case Parsed(doc) =>
      var tri := DetectTriphase(doc, guess);
      var d0 := StatusReading(doc, KeyPrefix(tri, channel));
      var d := d0.(energyKwh := EnergyAfter(http(EnergyRequest(url, tri, channel)), 0.0));
      if d.voltageV <= 0.0 then s.(currentData := d, lastError := ERR_VOLTAGE)
      else s.(currentData := d, bOnline := true, lastSuccessTs := now)
  }

  /** The state after fetchAllData at time now. */
  function Fetch(s: SourceState, shellyUrl: string, shellyChannel: int, wifiConnected: bool,
                 http: Request -> Response, now: Uint32): SourceState
  {
    var s0 := s.(bOnline := false, lastError := "", lastHttpCode := 0);
    if !wifiConnected then s0.(lastError := ERR_WIFI)
    else if shellyUrl == "" then s0.(lastError := ERR_NO_URL)
    else
      var url := TrimTrailingSlash(shellyUrl);
      var channel := ClampChannel(shellyChannel);
      var r3 := http(EmStatusRequest(url));
      if r3.code == HTTP_CODE_OK then Measure(s0.(lastHttpCode := r3.code), url, channel, r3, true, http, now)
      else
        var r1 := http(Em1StatusRequest(url, channel));
        if r1.code != HTTP_CODE_OK then s0.(lastHttpCode := r1.code, lastError := "HTTP Error " + IntToString(r1.code))
        else Measure(s0.(lastHttpCode := r1.code), url, channel, r1, false, http, now)
  }

  /** Without Wi-Fi or without a URL the fetch stops at once; only the diagnostics change. */
  lemma EarlyExits(s: SourceState, shellyUrl: string, shellyChannel: int,
                   http: Request -> Response, now: Uint32)
    ensures Fetch(s, shellyUrl, shellyChannel, false, http, now)
      == s.(bOnline := false, lastError := ERR_WIFI, lastHttpCode := 0)
    ensures shellyUrl == "" ==>
      Fetch(s, shellyUrl, shellyChannel, true, http, now) == s.(bOnline := false, lastError := ERR_NO_URL, lastHttpCode := 0)
  {
  }

  /**
   When both status endpoints refuse, the single-phase code is kept, the error
   names it, and the reading is untouched.
   */
  lemma BothEndpointsFail(s: SourceState, shellyUrl: string, shellyChannel: int,
                          http: Request -> Response, now: Uint32)
    requires shellyUrl != ""
    requires http(EmStatusRequest(TrimTrailingSlash(shellyUrl))).code != HTTP_CODE_OK
    requires http(Em1StatusRequest(TrimTrailingSlash(shellyUrl), ClampChannel(shellyChannel))).code != HTTP_CODE_OK
    ensures var code := http(Em1StatusRequest(TrimTrailingSlash(shellyUrl), ClampChannel(shellyChannel))).code;
      Fetch(s, shellyUrl, shellyChannel, true, http, now)
        == s.(bOnline := false, lastHttpCode := code, lastError := "HTTP Error " + IntToString(code))
  {
  }

  /**
   The source is online exactly when no error was recorded; then the last status
   code is 200 and the success time is now. Otherwise the success time is kept.
   */
  lemma OnlineIffNoError(s: SourceState, shellyUrl: string, shellyChannel: int, wifiConnected: bool,
                         http: Request -> Response, now: Uint32)
    ensures var t := Fetch(s, shellyUrl, shellyChannel, wifiConnected, http, now);
      (t.bOnline <==> t.lastError == "")
      && (t.bOnline ==> t.lastHttpCode == HTTP_CODE_OK && t.lastSuccessTs == now && t.currentData.voltageV > 0.0)
      && (!t.bOnline ==> t.lastSuccessTs == s.lastSuccessTs)
  {
    var t := Fetch(s, shellyUrl, shellyChannel, wifiConnected, http, now);
    if wifiConnected && shellyUrl != "" {
      var url := TrimTrailingSlash(shellyUrl);
      var channel := ClampChannel(shellyChannel);
      var r3 := http(EmStatusRequest(url));
      var r1 := http(Em1StatusRequest(url, channel));
      if r3.code != HTTP_CODE_OK && r1.code != HTTP_CODE_OK {
        assert t.lastError == "HTTP Error " + IntToString(r1.code);
        assert t.lastError[0] == 'H';
      } else {
        var r := if r3.code == HTTP_CODE_OK then r3 else r1;
        if r.body.ParseError? {
          assert t.lastError[0] == 'J';
        }
      }
    } else if !wifiConnected {
      assert t.lastError[0] == 'W';
    } else {
      assert t.lastError[0] == 'S';
    }
  }

  /** A reading that passed the status request is stored even when its voltage refuses it. */
  lemma RejectedReadingStillStored(s: SourceState, url: string, channel: nat, doc: Json, guess: bool,
                                   http: Request -> Response, now: Uint32)
    requires !s.bOnline
    requires FloatOr(doc, KeyPrefix(DetectTriphase(doc, guess), channel) + "voltage", 0.0) <= 0.0
    ensures var t := Measure(s, url, channel, Response(HTTP_CODE_OK, Parsed(doc)), guess, http, now);
      var tri := DetectTriphase(doc, guess);
      t.currentData == StatusReading(doc, KeyPrefix(tri, channel)).(energyKwh := EnergyAfter(http(EnergyRequest(url, tri, channel)), 0.0))
      && t.currentData.voltageV == FloatOr(doc, KeyPrefix(tri, channel) + "voltage", 0.0)
      && t.lastError == ERR_VOLTAGE && !t.bOnline
  {
  }

  /** A failed or unreadable energy request is not fatal: the energy is 0 and only the voltage decides. */
  lemma EnergyFailureNotFatal(s: SourceState, url: string, channel: nat, doc: Json, guess: bool,
                              http: Request -> Response, now: Uint32)
    requires !s.bOnline
    requires var q := EnergyRequest(url, DetectTriphase(doc, guess), channel);
      http(q).code != HTTP_CODE_OK || http(q).body.ParseError?
    ensures var t := Measure(s, url, channel, Response(HTTP_CODE_OK, Parsed(doc)), guess, http, now);
      t.currentData.energyKwh == 0.0
      && (t.bOnline <==> t.currentData.voltageV > 0.0)
  {
  }

  /** Channel 1 on a three-phase answer reads the phase-B keys. */
  lemma PhaseBExample()
    ensures var doc := Obj(map["a_voltage" := Num(230.0), "b_voltage" := Num(231.5), "b_act_power" := Num(400.0)]);
      var d := StatusReading(doc, KeyPrefix(DetectTriphase(doc, false), 1));
      d.voltageV == 231.5 && d.powerW == 400.0 && d.currentA == 0.0 && d.frequencyHz == 50.0
  {
    var doc := Obj(map["a_voltage" := Num(230.0), "b_voltage" := Num(231.5), "b_act_power" := Num(400.0)]);
    assert DetectTriphase(doc, false);
    assert KeyPrefix(true, 1) + "voltage" == "b_voltage";
    assert KeyPrefix(true, 1) + "act_power" == "b_act_power";
    assert KeyPrefix(true, 1) + "current" == "b_current";
    assert KeyPrefix(true, 1) + "freq" == "b_freq";
  }

  /** The field assignments from the status answer, phase-prefixed in three-phase mode. */
  method ReadStatus(d0: MeterData, doc: Json, isTriphase: bool, channel: int) returns (d: MeterData)
    ensures d == StatusReading(doc, KeyPrefix(isTriphase, channel))
  {
    d := d0;
    if isTriphase {
      var prefix := PhasePrefix(channel);
      d := d.(voltageV := FloatOr(doc, prefix + "voltage", 0.0));
      d := d.(currentA := FloatOr(doc, prefix + "current", 0.0));
      d := d.(powerW := FloatOr(doc, prefix + "act_power", 0.0));
      d := d.(powerFactor := FloatOr(doc, prefix + "pf", 0.0));
      d := d.(frequencyHz := FloatOr(doc, prefix + "freq", 50.0));
      d := d.(energyKwh := 0.0);
    } else {
      d := d.(voltageV := FloatOr(doc, "voltage", 0.0));
      d := d.(currentA := FloatOr(doc, "current", 0.0));
      d := d.(powerW := FloatOr(doc, "act_power", 0.0));
      d := d.(powerFactor := FloatOr(doc, "pf", 0.0));
      d := d.(frequencyHz := FloatOr(doc, "freq", 50.0));
      d := d.(energyKwh := 0.0);
      assert "" + "voltage" == "voltage" && "" + "current" == "current" && "" + "act_power" == "act_power";
      assert "" + "pf" == "pf" && "" + "freq" == "freq";
    }
  }

  /** The energy-counter answer applied to the reading; nothing else changes. */
  method ReadEnergy(d0: MeterData, energyResp: Response) returns (d: MeterData)
    ensures d == d0.(energyKwh := EnergyAfter(energyResp, d0.energyKwh))
  {
    d := d0;
    if energyResp.code == HTTP_CODE_OK && energyResp.body.Parsed? {
      var energyDoc := energyResp.body.doc;
      if ContainsKey(energyDoc, "total_act_energy") {
        d := d.(energyKwh := AsFloat(Member(energyDoc, "total_act_energy")) / 1000.0);
      } else if ContainsKey(energyDoc, "total_act") {
        d := d.(energyKwh := AsFloat(Member(energyDoc, "total_act")) / 1000.0);
      }
    }
  }

  class ShellyGen2Client {
    var currentData: MeterData
    var bOnline: bool
    var lastHttpCode: int
    var lastError: string
    var lastSuccessTs: Uint32

    function State(): SourceState
      reads this
    {
      SourceState(currentData, bOnline, lastHttpCode, lastError, lastSuccessTs)
    }

    constructor ()
      ensures State() == InitialState
    {
      currentData := FreshMeterData;
      bOnline := false;
      lastHttpCode := 0;
      lastError := "";
      lastSuccessTs := 0;
    }

    /**
     fetchAllData with the Wi-Fi status, the Shelly URL and channel settings, the
     HTTP transport and the millis() value at the end as inputs.
     */
    method FetchAllData(shellyUrl: string, shellyChannel: int, wifiConnected: bool,
                        http: Request -> Response, now: Uint32)
      modifies this
      ensures State() == Fetch(old(State()), shellyUrl, shellyChannel, wifiConnected, http, now)
    {
      bOnline := false;
      lastError := "";
      lastHttpCode := 0;

      if !wifiConnected {
        lastError := ERR_WIFI;
        return;
      }
      var url := shellyUrl;
      if url == "" {
        lastError := ERR_NO_URL;
        return;
      }
      if EndsWith(url, "/") {
        url := url[..|url| - 1];
      }
      var channel := shellyChannel;
      if channel < 0 {
        channel := 0;
      }
      if channel > 2 {
        channel := 2;
      }

      var resp := http(Get(url + "/rpc/EM.GetStatus?id=0", None));
      lastHttpCode := resp.code;
      var isTriphase := true;
      if resp.code != HTTP_CODE_OK {
        resp := http(Get(url + "/rpc/EM1.GetStatus?id=" + NatToString(channel), None));
        lastHttpCode := resp.code;
        isTriphase := false;
        if resp.code != HTTP_CODE_OK {
          lastError := "HTTP Error " + IntToString(resp.code);
          return;
        }
      }

      MeasureFrom(url, channel, resp, isTriphase, http, now);
    }

    /** The rest of fetchAllData once a status endpoint answered 200. */
    method MeasureFrom(url: string, channel: nat, resp: Response, guess: bool,
                       http: Request -> Response, now: Uint32)
      modifies this
      ensures State() == Measure(old(State()), url, channel, resp, guess, http, now)
    {
      var isTriphase := guess;
      if resp.body.ParseError? {
        lastError := "JSON parse error: " + resp.body.reason;
        return;
      }
      var doc := resp.body.doc;
      if ContainsKey(doc, "a_voltage") {
        isTriphase := true;
      } else if ContainsKey(doc, "voltage") {
        isTriphase := false;
      }

      var d := ReadStatus(currentData, doc, isTriphase, channel);
      var energyApi: string;
      if isTriphase {
        energyApi := url + "/rpc/EMData.GetStatus?id=0";
      } else {
        energyApi := url + "/rpc/EM1Data.GetStatus?id=" + NatToString(channel);
      }
      var energyResp := http(Get(energyApi, None));
      d := ReadEnergy(d, energyResp);
      currentData := d;

      if d.voltageV <= 0.0 {
        lastError := ERR_VOLTAGE;
        return;
      }
      bOnline := true;
      lastSuccessTs := now;
    }
  }
}
