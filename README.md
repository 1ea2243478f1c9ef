# SDM120 Modbus meter emulator: a Dafny model

The firmware runs on an ESP32. It reads the live values of a household energy meter from one of three sources:

- Home Assistant's REST API;
- a Shelly Gen1 3EM;
- a Shelly Gen2/Gen3 3EM over its RPC API.

It then serves those values to a Modbus RTU master, as an Eastron SDM120 meter would. The model covers five parts of that firmware:

- **Modbus** (`modbus_manager.dfy`):
  - the nine two-word input-register slots and their base addresses;
  - how the float/word union splits a 32-bit pattern into a high word at the base address and a low word after it;
  - the freshness stamp `lastGoodMillis`;
  - the request callback's decision (illegal function, stale data, or success), with `millis()` wrap-around;
  - the register table of the Modbus slave, as `begin()` registers it and as `updateModbusRegisters()` rewrites it.
- **DataManager** (`data_manager.dfy`): the `MeterData` record that each source publishes, and the state every source exposes.
- **The three measurement sources** (`home_assistant_client.dfy`, `shelly_client.dfy`, `shelly_gen2_client.dfy`). Each `fetchAllData` is:
  - a method on a class with the fields of the C++ object;
  - proved equal to a pure function `Fetch` of the old state and the inputs;
  - backed by lemmas that state what the code promises: early exits, defaults, key selection, validation, and the diagnostics.
- **Logging** (`logger.dfy`): the bounded FIFO of 200 entries, with its text rendering (oldest first) and HTML rendering (newest first, with a tag filter).
- **Configuration** (`config_manager.dfy`):
  - the `Config` record with its fixed-size char buffers;
  - NUL-termination on load;
  - the fallback to the all-zero default;
  - `save` and `reset`.

Supporting modules:

- `words.dfy`: machine words, plus the decimal rendering of `String(unsigned long)` and `String(int)`.
- `http.dfy`: HTTP requests and answers, and the part of a JSON document that the sources look at.

The environment becomes inputs of the model:

- The HTTP transport is a parameter `http: Request -> Response`: one answer (status code and parse outcome) per request.
- The Wi-Fi status is a `bool`.
- `millis()` is a `now: Uint32` parameter.
- `String::toFloat` is a parameter `toFloat`.
- The IEEE-754 bit pattern of a float, `sqrt` and `acos` are the fields of a `FloatMath` value.
- Floats are reals, without rounding.
- The Shelly clients read `shelly_url` and `shelly_channel`, which `ConfigManager.h` does not declare. They are extra parameters.

The part of the modbus-esp8266 library that the manager uses is modelled as pure functions on a map from address to word:

- `mb.addIreg(offset, value, n)` is `AddIreg`. It creates the registers that are missing and leaves existing ones alone.
- `mb.Ireg(offset, value)` is `Ireg`. It sets a register that exists and ignores one that does not.

## Model

| member | source | states |
|---|---|---|
| Words.NatToString | src/Logger.cpp:19 | the decimal digits of a number, no leading zero |
| Words.NatToStringRoundTrip | src/Logger.cpp:19 | the rendered digits read back as the number (the log timestamp loses nothing) |
| Words.NatToStringInjective | src/Logger.cpp:19 | distinct numbers render differently |
| Words.IntToString | src/SDM120_Emulator/ShellyGen2Client.cpp:61 | String(int): a minus sign for negatives, then the magnitude's digits |
| Http.Member | src/SDM120_Emulator/ShellyClient.cpp:67-80 | a member that is absent reads as no value, never as a number; the containsKey guards supply the defaults |
| Http.StringMember | src/SDM120_Emulator/HomeAssistantClient.cpp:96-97 | `doc["state"]` read as `const char*` is present exactly when the member exists and is a string |
| DataManager.MeterData.WithField | src/SDM120_Emulator/HomeAssistantClient.cpp:29-39 | storing through a field pointer changes that field only |
| DataManager.ReadingsEqualByField | src/SDM120_Emulator/DataManager.h:8-16 | a reading is determined by its six fields |
| DataManager.FreshMeterDataIsZero | src/SDM120_Emulator/DataManager.h:10-15 | a fresh MeterData is 0.0 in all six fields |
| Modbus.Base | src/SDM120_Emulator/ModbusManager.h:12-20 | the base addresses 0x00 … 0x48; each two-word window fits in 16-bit addresses |
| Modbus.SlotAt | src/SDM120_Emulator/ModbusManager.h:12-20 | an address that belongs to a slot is that slot's base or the word after it |
| Modbus.SlotAtWindow | src/SDM120_Emulator/ModbusManager.h:12-20 | both addresses of a slot's window lead back to that slot |
| Modbus.SlotsDisjoint | src/SDM120_Emulator/ModbusManager.h:12-20 | the windows of distinct slots do not overlap |
| Modbus.SlotRegistered | src/SDM120_Emulator/ModbusManager.cpp:18-26 | begin() registers every slot's window |
| Modbus.RegisterAddressesAreTheSlots | src/SDM120_Emulator/ModbusManager.cpp:18-26 | begin() registers an address exactly when it lies in some slot's window |
| Modbus.Overlay | src/SDM120_Emulator/ModbusManager.h:38-41 | the union's two words: i[1] is the high half and i[0] the low half of the pattern |
| Modbus.OverlayJoin | src/SDM120_Emulator/ModbusManager.h:38-41 | joining high and low word gives the pattern back (the split is lossless) |
| Modbus.JoinOverlay | src/SDM120_Emulator/ModbusManager.h:38-41 | every pair of words is the split of exactly one pattern |
| Modbus.ApparentPower | src/SDM120_Emulator/ModbusManager.cpp:87 | definition: S = voltage · current; PatternOfSlot places it in the apparent-power slot |
| Modbus.ReactivePower | src/SDM120_Emulator/ModbusManager.cpp:92 | definition: Q = S · sqrt(1 − PF²); PatternOfSlot places it in the reactive-power slot |
| Modbus.PhaseAngle | src/SDM120_Emulator/ModbusManager.cpp:104 | definition: acos(PF) · 180/π in degrees; PatternOfSlot places it in the phase-angle slot |
| Modbus.EncodeRegisters | src/SDM120_Emulator/ModbusManager.cpp:73-110 | definition: the nine slots' patterns split into a table of 18 words; its keys, slots and injectivity are stated by EncodedAddresses, EncodedSlot and EncodingSeparatesServedFields |
| Modbus.WrittenSlot | src/SDM120_Emulator/ModbusManager.cpp:73-110 | after slot-by-slot writes, each written slot holds its high word at the base and its low word after it, whatever was written later |
| Modbus.TableIsWritten | src/SDM120_Emulator/ModbusManager.cpp:73-110 | the update's table is its nine slots written in the writer's order |
| Modbus.TableKeys | src/SDM120_Emulator/ModbusManager.cpp:73-110 | an update's words lie exactly on the 18 registered addresses |
| Modbus.TableSlot | src/SDM120_Emulator/ModbusManager.cpp:73-110 | each slot's pattern sits in its window, high half first |
| Modbus.EncodedAddresses | src/SDM120_Emulator/ModbusManager.cpp:73-110 | the encoding of a reading covers exactly the 18 registered addresses |
| Modbus.PatternOfSlot | src/SDM120_Emulator/ModbusManager.cpp:75-110 | six slots carry the reading's fields unchanged; apparent power, reactive power and phase angle are computed from the reading alone |
| Modbus.EncodedSlot | src/SDM120_Emulator/ModbusManager.cpp:73-110 | reg[base] is the high and reg[base+1] the low half of the slot value's pattern; hi·65536+lo is that pattern |
| Modbus.EncodingSeparatesServedFields | src/SDM120_Emulator/ModbusManager.cpp:75-110 | readings whose patterns differ in a directly served field give different register tables |
| Modbus.Elapsed | src/SDM120_Emulator/ModbusManager.cpp:40 | `now - lastGoodMillis` on unsigned long is the difference modulo 2^32 |
| Modbus.OnRequest | src/SDM120_Emulator/ModbusManager.cpp:30-48 | another function code gives EX_ILLEGAL_FUNCTION; a read-input-registers request gives EX_SLAVE_FAILURE exactly when the elapsed time exceeds 30000 ms, otherwise EX_SUCCESS |
| Modbus.ElapsedAcrossWrap | src/SDM120_Emulator/ModbusManager.cpp:40 | the unsigned difference of two millis() readings is the true time between them across a wrap-around (below 2^32 ms) |
| Modbus.StaleCheckAcrossWrap | src/SDM120_Emulator/ModbusManager.cpp:39-44 | the staleness check compares the true age of the report with 30 s, also across a wrap-around; exactly 30000 ms is accepted |
| Modbus.IllegalFunctionRegardlessOfFreshness | src/SDM120_Emulator/ModbusManager.cpp:32-35 | another function code is refused whatever lastGoodMillis is |
| Modbus.Ireg | src/SDM120_Emulator/ModbusManager.cpp:76-110 | definition of mb.Ireg: an existing register takes the value, a missing one is ignored; IregAfterOverwrite and IregSlot state its effect |
| Modbus.AddIreg | src/SDM120_Emulator/ModbusManager.cpp:18-26 | definition of mb.addIreg(offset, value, n): the n registers from offset are created at value unless they exist; AddSlot states its effect |
| Modbus.OverwriteKeys | src/SDM120_Emulator/ModbusManager.cpp:76-110 | mb.Ireg never adds or removes a register |
| Modbus.OverwriteRegistered | src/SDM120_Emulator/ModbusManager.cpp:76-110 | on registers that all exist, the mb.Ireg writes replace their values |
| Modbus.OverwriteOverwrite | src/SDM120_Emulator/ModbusManager.cpp:73-110 | a second update over the same addresses hides the first completely |
| Modbus.IregAfterOverwrite | src/SDM120_Emulator/ModbusManager.cpp:76-77 | one more mb.Ireg extends the words written so far by that word |
| Modbus.IregSlot | src/SDM120_Emulator/ModbusManager.cpp:76-77 | the two mb.Ireg calls of a slot write that slot's window |
| Modbus.UpdatedSlot | src/SDM120_Emulator/ModbusManager.cpp:73-110 | after an update every existing slot register holds the reading's words, and they join to its pattern |
| Modbus.UpdateLeavesOthers | src/SDM120_Emulator/ModbusManager.cpp:73-110 | a register outside the nine slots keeps its value |
| Modbus.UpdateWritesWholeTable | src/SDM120_Emulator/ModbusManager.cpp:73-110 | once begin() has registered the slots, an update replaces exactly those 18 words |
| Modbus.UpdateForgetsEarlierReading | src/SDM120_Emulator/ModbusManager.cpp:73-110 | an update leaves no trace of the reading written before it |
| Modbus.AddSlot | src/SDM120_Emulator/ModbusManager.cpp:18 | addIreg(base, 0, 2) registers the slot's window at 0 and keeps existing registers |
| Modbus.AddIregSequenceRegisters | src/SDM120_Emulator/ModbusManager.cpp:18-26 | the nine addIreg calls register exactly the 18 addresses |
| Modbus.BeginThenUpdate | src/SDM120_Emulator/ModbusManager.cpp:18-26 | on a table of just the 18 registers, an update leaves exactly the encoding of the reading |
| Modbus.RegisterSlots | src/SDM120_Emulator/ModbusManager.cpp:17-26 | after the addIreg calls all 18 addresses exist; earlier registers keep their values; new ones hold 0 |
| Modbus.WriteSlot | src/SDM120_Emulator/ModbusManager.cpp:75-77 | a slot's pair of mb.Ireg calls through the union writes that slot's window |
| Modbus.WriteReading | src/SDM120_Emulator/ModbusManager.cpp:71-110 | the eighteen mb.Ireg calls overwrite the existing registers with the encoding of the reading and leave the rest |
| Modbus.ModbusManager.constructor | src/SDM120_Emulator/ModbusManager.h:35 | lastGoodMillis is 0 before begin() |
| Modbus.ModbusManager.Begin | src/SDM120_Emulator/ModbusManager.cpp:6-26 | lastGoodMillis becomes now; the 18 registers exist, old ones unchanged, new ones 0 |
| Modbus.ModbusManager.UpdateModbusRegisters | src/SDM120_Emulator/ModbusManager.cpp:62-111 | lastGoodMillis moves to now exactly when the source is online; the registers get the encoding of the reading |
| Modbus.ModbusManager.Respond | src/SDM120_Emulator/ModbusManager.cpp:30-48 | the installed callback succeeds exactly for a fresh read-input-registers request |
| Modbus.StartupGrace | src/SDM120_Emulator/ModbusManager.cpp:14-15 | requests within 30 s after begin() are served even if the source was never online |
| HomeAssistant.EntityState | src/SDM120_Emulator/HomeAssistantClient.cpp:72-111 | definition of getHAEntityState: 0.0 on an empty id, a non-200 code, a parse error or a missing string "state", else toFloat of the state; EntityStateCases states the cases |
| HomeAssistant.StateRequest | src/SDM120_Emulator/HomeAssistantClient.cpp:76-80 | GET base + "/api/states/" + entity with the token as bearer |
| HomeAssistant.EntityStateCases | src/SDM120_Emulator/HomeAssistantClient.cpp:72-111 | 0.0 for an empty id, a non-200 code, a parse error or a missing "state"; otherwise the converted state |
| HomeAssistant.RawReading | src/SDM120_Emulator/HomeAssistantClient.cpp:23-40 | each field is the state of its own configured entity |
| HomeAssistant.CorrectPowerFactor | src/SDM120_Emulator/HomeAssistantClient.cpp:43-45 | definition: a factor above 1 divided by 100; CorrectedPowerFactorInRange states its range |
| HomeAssistant.Passes | src/SDM120_Emulator/HomeAssistantClient.cpp:53-60 | definition: the check of one row of the validation table |
| HomeAssistant.Plausible | src/SDM120_Emulator/HomeAssistantClient.cpp:53-60 | definition: all six checks hold; PassesEveryCheck ties it to the table |
| HomeAssistant.Fetch | src/SDM120_Emulator/HomeAssistantClient.cpp:7-70 | definition of the state after fetchAllData; FetchOnlineIff, EarlyExitKeepsReading and RejectedReadingStillStored state its outcomes |
| HomeAssistant.CorrectedPowerFactorInRange | src/SDM120_Emulator/HomeAssistantClient.cpp:43-45 | a factor above 1 is divided by 100, otherwise kept; the result is in [0,1] exactly when the raw value is in [0,100] |
| HomeAssistant.PowerFactorExamples | src/SDM120_Emulator/HomeAssistantClient.cpp:43-45 | raw 95 gives 0.95 (accepted), raw 150 gives 1.5 (refused) |
| HomeAssistant.PassesEveryCheck | src/SDM120_Emulator/HomeAssistantClient.cpp:53-67 | passing the six checks in table order is exactly plausibility |
| HomeAssistant.FirstFailure | src/SDM120_Emulator/HomeAssistantClient.cpp:53-67 | the first failing check in table order; all earlier ones pass; none fails exactly for a plausible reading |
| HomeAssistant.FetchOnlineIff | src/SDM120_Emulator/HomeAssistantClient.cpp:7-70 | online exactly when Wi-Fi is up, URL and token are set and all six checks pass; diagnostics untouched |
| HomeAssistant.EarlyExitKeepsReading | src/SDM120_Emulator/HomeAssistantClient.cpp:8-21 | without Wi-Fi, URL or token the reading stays and the source is offline |
| HomeAssistant.RejectedReadingStillStored | src/SDM120_Emulator/HomeAssistantClient.cpp:38-69 | past the guards all six fetched fields, with the corrected power factor, replace the reading even when validation refuses them |
| HomeAssistant.EmptyPowerEntityRejected | src/SDM120_Emulator/HomeAssistantClient.cpp:54 | with no power entity the reading is always refused |
| HomeAssistant.FetchEntities | src/SDM120_Emulator/HomeAssistantClient.cpp:38-40 | the fetch loop stores every entity's state in its field |
| HomeAssistant.Validate | src/SDM120_Emulator/HomeAssistantClient.cpp:62-67 | the validation loop with early exit accepts exactly the plausible readings |
| HomeAssistant.HomeAssistantClient.constructor | src/SDM120_Emulator/DataManager.h:27-28 | a fresh source: zero reading, offline, diagnostics 0 and "" |
| HomeAssistant.HomeAssistantClient.FetchAllData | src/SDM120_Emulator/HomeAssistantClient.cpp:7-70 | the new state is Fetch of the old state and the inputs |
| Shelly.DeviceUrl | src/SDM120_Emulator/ShellyClient.cpp:16-19 | shelly_url if set, else the Home Assistant URL; empty exactly when both are |
| Shelly.StatusRequest | src/SDM120_Emulator/ShellyClient.cpp:27 | GET url + "/status", the URL used as it is |
| Shelly.FirstMeter | src/SDM120_Emulator/ShellyClient.cpp:33-64 | emeters[0] exactly when the answer is 200, parses and has a non-empty "emeters" array |
| Shelly.MeterEnergy | src/SDM120_Emulator/ShellyClient.cpp:69-75 | definition: total/1000, else energy, else 0; TotalBeforeEnergy states the preference |
| Shelly.MeterReading | src/SDM120_Emulator/ShellyClient.cpp:67-80 | definition: the six fields from the meter object with their defaults; EmptyMeterDefaults and ExampleStatus state instances |
| Shelly.InRange | src/SDM120_Emulator/ShellyClient.cpp:83 | definition: voltage > 0, current ≥ 0 and power ≥ 0 |
| Shelly.Fetch | src/SDM120_Emulator/ShellyClient.cpp:7-89 | definition of the state after fetchAllData; FetchOnlineIff, NoMeterKeepsReading and RejectedReadingStillStored state its outcomes |
| Shelly.FetchOnlineIff | src/SDM120_Emulator/ShellyClient.cpp:8-88 | online exactly when a meter object was obtained with voltage > 0, current ≥ 0 and power ≥ 0; diagnostics untouched |
| Shelly.NoMeterKeepsReading | src/SDM120_Emulator/ShellyClient.cpp:10-62 | every early exit leaves the reading as it was and the source offline |
| Shelly.RejectedReadingStillStored | src/SDM120_Emulator/ShellyClient.cpp:67-86 | a meter object's values are stored even when the range check refuses them |
| Shelly.EmptyMeterDefaults | src/SDM120_Emulator/ShellyClient.cpp:67-80 | missing members read as 0, a missing frequency as 50, and such a reading is refused |
| Shelly.TotalBeforeEnergy | src/SDM120_Emulator/ShellyClient.cpp:69-75 | "total" in Wh wins over "energy" in kWh |
| Shelly.ExampleStatus | src/SDM120_Emulator/ShellyClient.cpp:67-88 | {power 150, voltage 230, current 0.65, total 12345} gives 12.345 kWh, 50 Hz, PF 0, online |
| Shelly.ShellyClient.constructor | src/SDM120_Emulator/DataManager.h:27-28 | a fresh source: zero reading, offline, diagnostics 0 and "" |
| Shelly.ShellyClient.FetchAllData | src/SDM120_Emulator/ShellyClient.cpp:7-89 | the new state is Fetch of the old state and the inputs |
| ShellyGen2.TrimTrailingSlash | src/SDM120_Emulator/ShellyGen2Client.cpp:31-33 | one trailing '/' is removed, nothing else |
| ShellyGen2.TrimsOneSlashOnly | src/SDM120_Emulator/ShellyGen2Client.cpp:31-33 | "http://h//" becomes "http://h/" |
| ShellyGen2.ClampChannel | src/SDM120_Emulator/ShellyGen2Client.cpp:35-37 | the channel is clamped to 0..2 and kept when already in range |
| ShellyGen2.EndpointsDistinct | src/SDM120_Emulator/ShellyGen2Client.cpp:40-53 | the two status endpoints, and the two energy endpoints, are different requests |
| ShellyGen2.DetectTriphase | src/SDM120_Emulator/ShellyGen2Client.cpp:82-86 | "a_voltage" means three-phase, else "voltage" means single-phase, else the endpoint's guess stands |
| ShellyGen2.StatusReading | src/SDM120_Emulator/ShellyGen2Client.cpp:88-118 | definition: power, voltage, current, frequency (50 default) and PF under the key prefix, energy 0; PhaseBExample states an instance |
| ShellyGen2.EnergyRequest | src/SDM120_Emulator/ShellyGen2Client.cpp:121-126 | definition: EMData id=0 for three-phase, EM1Data id=channel otherwise; EndpointsDistinct states they differ |
| ShellyGen2.EnergyAfter | src/SDM120_Emulator/ShellyGen2Client.cpp:131-142 | a failed or unparsable energy answer keeps the energy |
| ShellyGen2.EnergyPreference | src/SDM120_Emulator/ShellyGen2Client.cpp:136-140 | on a parsed 200 answer total_act_energy/1000 wins, else total_act/1000, else the energy is kept |
| ShellyGen2.Measure | src/SDM120_Emulator/ShellyGen2Client.cpp:69-155 | definition of the fetch after a 200 status answer; OnlineIffNoError, RejectedReadingStillStored and EnergyFailureNotFatal state its outcomes |
| ShellyGen2.Fetch | src/SDM120_Emulator/ShellyGen2Client.cpp:12-155 | definition of the state after fetchAllData; EarlyExits, BothEndpointsFail and OnlineIffNoError state its outcomes |
| ShellyGen2.EarlyExits | src/SDM120_Emulator/ShellyGen2Client.cpp:13-28 | without Wi-Fi or URL only the flag and diagnostics change, with the fixed error texts |
| ShellyGen2.BothEndpointsFail | src/SDM120_Emulator/ShellyGen2Client.cpp:50-66 | when both status endpoints refuse, the second code is kept and named in the error; the reading is untouched |
| ShellyGen2.OnlineIffNoError | src/SDM120_Emulator/ShellyGen2Client.cpp:12-155 | online exactly when no error is recorded; then the code is 200, the success time is now and the voltage positive |
| ShellyGen2.RejectedReadingStillStored | src/SDM120_Emulator/ShellyGen2Client.cpp:104-150 | a reading refused for its voltage is still stored whole: the status reading under the key prefix with the energy answer applied; the error is "invalid voltage" and the source stays offline |
| ShellyGen2.EnergyFailureNotFatal | src/SDM120_Emulator/ShellyGen2Client.cpp:120-152 | a failed energy request leaves energy 0 and only the voltage decides |
| ShellyGen2.PhaseBExample | src/SDM120_Emulator/ShellyGen2Client.cpp:88-108 | channel 1 on a three-phase answer reads the b_ keys, with the 0 and 50 Hz defaults |
| ShellyGen2.ReadStatus | src/SDM120_Emulator/ShellyGen2Client.cpp:88-118 | the field assignments give the status reading with the profile's key prefix |
| ShellyGen2.ReadEnergy | src/SDM120_Emulator/ShellyGen2Client.cpp:128-143 | only the energy changes, as the energy answer decides |
| ShellyGen2.ShellyGen2Client.constructor | src/SDM120_Emulator/DataManager.h:27-28 | a fresh source: zero reading, offline, diagnostics 0 and "" |
| ShellyGen2.ShellyGen2Client.FetchAllData | src/SDM120_Emulator/ShellyGen2Client.cpp:12-67 | the new state is Fetch of the old state and the inputs |
| ShellyGen2.ShellyGen2Client.MeasureFrom | src/SDM120_Emulator/ShellyGen2Client.cpp:69-155 | the rest of the fetch after a 200 status answer is Measure |
| Logging.TagToString | src/Logger.cpp:50-60 | the names of the tags; "Other" exactly for the Shelly tag |
| Logging.TagToStringInjective | src/Logger.cpp:50-60 | distinct tags have distinct names |
| Logging.NewEntry | src/Logger.cpp:18-21 | definition: whole seconds of millis(), the tag name and the message |
| Logging.Appended | src/Logger.cpp:14-22 | definition: drop the oldest entry at capacity, then append; AppendedShape and AppendedKeepsNewest state its effect |
| Logging.AppendedShape | src/Logger.cpp:14-22 | at most 200 entries; below capacity one more, at capacity exactly the oldest dropped; the new entry last, the others in order |
| Logging.AppendedKeepsNewest | src/Logger.cpp:14-22 | the log holds the newest entries ever logged, all of them while fewer than 200 |
| Logging.Matching | src/Logger.cpp:62-75 | the filter keeps exactly the shown entries of the log: every kept entry is shown and from the log, and every shown entry is kept |
| Logging.MatchingSnoc | src/Logger.cpp:62-75 | filtering keeps log order: an entry logged later comes after the kept earlier ones |
| Logging.TxtLines | src/Logger.cpp:42-48 | definition: one line per entry, oldest first; TxtLinesOrder states the order |
| Logging.HtmlRows | src/Logger.cpp:62-75 | definition: the rows of the shown entries, newest first; HtmlRowsNewestFirst and HtmlRowsFilter state order and filter |
| Logging.TxtLinesOrder | src/Logger.cpp:42-48 | the text lines are oldest first: the newest entry is the last line |
| Logging.HtmlRowsNewestFirst | src/Logger.cpp:62-75 | the HTML rows are newest first: the newest shown entry is the first row |
| Logging.HtmlRowsFilter | src/Logger.cpp:62-75 | a filter shows exactly the entries whose tag equals it |
| Logging.MatchingAll | src/Logger.cpp:62-66 | "All" keeps every entry |
| Logging.AppendRow | src/Logger.cpp:67-71 | the five appends make up one table row |
| Logging.Logger.constructor | src/Logger.cpp:3-5 | the log starts empty |
| Logging.Logger.Log | src/Logger.cpp:13-27 | the log becomes Appended(old log, entry with whole seconds, tag name and message) and stays within 200 |
| Logging.Logger.GetLogsTxt | src/Logger.cpp:42-48 | the header and one line per entry, oldest first |
| Logging.Logger.GetLogsHtmlFiltered | src/Logger.cpp:62-75 | the rows of the shown entries, newest first |
| Logging.Logger.GetLogsHtml | src/Logger.cpp:29-39 | the same rows as the "All" filter |
| Configuration.CStrLen | ConfigManager.cpp:25 | strlen: the bytes before the first NUL |
| Configuration.CString | src/SDM120_Emulator/HomeAssistantClient.cpp:15-16 | String(buffer): the characters before the first NUL |
| Configuration.Terminate | ConfigManager.cpp:13-22 | forcing the last byte to NUL keeps every other byte |
| Configuration.TerminatedStringFits | ConfigManager.cpp:13-22 | a terminated buffer holds a string shorter than the buffer |
| Configuration.Sanitized | ConfigManager.cpp:13-22 | after sanitizing, every buffer of the record ends with NUL |
| Configuration.Loaded | ConfigManager.cpp:9-32 | definition of the record after load: sanitized image if configured with an SSID, else the default; LoadedCases, SaveThenLoad and LoadIdempotent state its properties |
| Configuration.DefaultConfigShape | ConfigManager.cpp:47-50 | the zero record is sized, terminated and not usable; neither is the reset record |
| Configuration.LoadedCases | ConfigManager.cpp:9-32 | after load either the image is kept apart from the terminators (configured, non-empty SSID), or the zero default; every buffer ends with NUL |
| Configuration.ResetIsRejectedByLoad | ConfigManager.cpp:25-28 | what reset() stores is replaced by the defaults on the next load |
| Configuration.SaveThenLoad | ConfigManager.cpp:34-37 | a saved terminated record with an SSID loads back unchanged |
| Configuration.LoadIdempotent | ConfigManager.cpp:9-32 | loading what load produced changes nothing |
| Configuration.ConfigManager.constructor | ConfigManager.h:7-19 | the record starts as the zero default; the store holds what the EEPROM held |
| Configuration.ConfigManager.SetDefaultConfig | ConfigManager.cpp:47-50 | the zero record, not configured; the store untouched |
| Configuration.ConfigManager.Load | ConfigManager.cpp:9-32 | the record becomes Loaded(store); the store untouched |
| Configuration.ConfigManager.Begin | ConfigManager.cpp:4-7 | the same as load |
| Configuration.ConfigManager.Save | ConfigManager.cpp:34-39 | configured becomes true and the store equals the record |
| Configuration.ConfigManager.Reset | ConfigManager.cpp:41-45 | record and store are the all-zero record marked configured |

## Left out

- Serial output is not modelled. This covers the serial echo of `log()`, the Modbus serial/baud/slave-id setup in `begin()`, `mb.task()` and the serving of Modbus frames. These are I/O. Only the callback's result code and the register table are modelled.
- The log calls made by the clients, the Modbus manager and the configuration manager are not modelled. Their messages format floats with `String(float)`, which is outside the model. The `Logger` itself is modelled.
- `getDataJson` of each source is not modelled. It is decimal formatting of floats.
- `HomeAssistantClient.getHAEntityState` is not a method of its own. Its result is the function `EntityState`, and the HTTP exchange is one application of the transport. The timeout, the `Content-Type` header and `http.end()` have no effect on the result and are left out.
- Floating-point rounding is left out: floats are reals. The float bit pattern, `sqrt` and `acos` are uninterpreted inputs. The /1000 and /100 steps and all comparisons are exact.
- The JSON document is a tree of numbers, strings, arrays and objects. `StaticJsonDocument` capacity limits are left out. In the model a member that is not a number reads as 0 through `as<float>()`. ArduinoJson would also parse a numeric string and read a boolean as 0 or 1. The devices send numbers.
- The EEPROM is the stored `Config` value itself, at offset 0. Its byte layout, `EEPROM.begin` and `EEPROM.commit` are left out. `EEPROM_SIZE` is written out as the sum of the buffer sizes plus the flag byte.
- `Logger::getInstance()` and the deleted copy constructor/assignment are not modelled: there is a single `Logger` object. The Modbus manager's `pxClient` pointer is replaced by its two results, `getCurrentData()` and `isOnline()`, passed to `UpdateModbusRegisters`.
- Modbus.ModbusManager.UpdateModbusRegisters: `EncodeRegisters` states what the eighteen words are for a reading. How many times the loop calls it, and with which readings, is outside the model.
- Wi-Fi, the web server and radio control are outside the modelled files.

## Behaviour worth noting

- If a fetch fails validation after the values were read, the code has already written them into `currentData`. A refused reading therefore replaces the previous one: only `bOnline` records the failure. The model stores the refused reading (the `RejectedReadingStillStored` lemmas of the three sources).
- The Gen1 Shelly client always reads `emeters[0]`. The model reads element 0; `shelly_channel` plays no part in the Gen1 fetch.
- The Home Assistant and Gen1 Shelly clients never write `lastHttpCode`, `lastError` or `lastSuccessTs`. The `FetchOnlineIff` lemmas state that these are unchanged.
- `LOG_TAG_SHELLY` has no case in `tagToString`, so Shelly messages carry the tag "Other".
