/**
 The persisted configuration: the Config record with its fixed-size char
 buffers, the EEPROM image it is stored as (the whole struct at offset 0) and
 the load/save policy of ConfigManager.
 */
module Configuration {
  import opened Words

  // ---------------------------------------------------------------------------
  // The Config struct (ConfigManager.h)
  // ---------------------------------------------------------------------------

  const SSID_SIZE: nat := 32
  const PASSWORD_SIZE: nat := 64
  const URL_SIZE: nat := 64
  const TOKEN_SIZE: nat := 256
  const ENTITY_SIZE: nat := 64

  /** The C struct field by field; every char buffer is a sequence of bytes. */
  datatype Config = Config(
    ssid: seq<Uint8>,
    password: seq<Uint8>,
    homeAssistantUrl: seq<Uint8>,
    homeAssistantToken: seq<Uint8>,
    entityPower: seq<Uint8>,
    entityVoltage: seq<Uint8>,
    entityCurrent: seq<Uint8>,
    entityEnergy: seq<Uint8>,
    entityFrequency: seq<Uint8>,
    entityPowerFactor: seq<Uint8>,
    configured: bool)

  /** Every buffer has the size the struct declares. */
  predicate WellSized(c: Config) {
    |c.ssid| == SSID_SIZE && |c.password| == PASSWORD_SIZE
    && |c.homeAssistantUrl| == URL_SIZE && |c.homeAssistantToken| == TOKEN_SIZE
    && |c.entityPower| == ENTITY_SIZE && |c.entityVoltage| == ENTITY_SIZE
    && |c.entityCurrent| == ENTITY_SIZE && |c.entityEnergy| == ENTITY_SIZE
    && |c.entityFrequency| == ENTITY_SIZE && |c.entityPowerFactor| == ENTITY_SIZE
  }

  /** sizeof(Config): ten char buffers and one bool, with no padding (all members are byte-aligned). */
  const EEPROM_SIZE: nat := SSID_SIZE + PASSWORD_SIZE + URL_SIZE + TOKEN_SIZE + 6 * ENTITY_SIZE + 1

  // ---------------------------------------------------------------------------
  // C strings
  // ---------------------------------------------------------------------------

  /** strlen: the bytes before the first NUL (the whole buffer if it has none). */
  function CStrLen(buf: seq<Uint8>): (n: nat)
    ensures n <= |buf|
    ensures forall i :: 0 <= i < n ==> buf[i] != 0
    ensures n < |buf| ==> buf[n] == 0
  {
    if buf == [] || buf[0] == 0 then 0 else 1 + CStrLen(buf[1..])
  }

  /** String(buf): the characters of a C string. */
  function CString(buf: seq<Uint8>): (s: string)
    ensures |s| == CStrLen(buf)
    ensures forall i :: 0 <= i < |s| ==> s[i] == buf[i] as char
  {
    if buf == [] || buf[0] == 0 then "" else [buf[0] as char] + CString(buf[1..])
  }

  /** The buffer with its last byte forced to NUL. */
  function Terminate(buf: seq<Uint8>): (r: seq<Uint8>)
    requires |buf| > 0
    ensures |r| == |buf| && r[|r| - 1] == 0
    ensures r[..|r| - 1] == buf[..|buf| - 1]
  {
    buf[|buf| - 1 := 0]
  }

  predicate Terminated(buf: seq<Uint8>) {
    |buf| > 0 && buf[|buf| - 1] == 0
  }

  /** A terminated buffer holds a string shorter than the buffer. */
  lemma TerminatedStringFits(buf: seq<Uint8>)
    requires Terminated(buf)
    ensures |CString(buf)| < |buf|
  {
  }

  /** Every buffer of the record ends with NUL. */
  predicate AllTerminated(c: Config) {
    Terminated(c.ssid) && Terminated(c.password)
    && Terminated(c.homeAssistantUrl) && Terminated(c.homeAssistantToken)
    && Terminated(c.entityPower) && Terminated(c.entityVoltage)
    && Terminated(c.entityCurrent) && Terminated(c.entityEnergy)
    && Terminated(c.entityFrequency) && Terminated(c.entityPowerFactor)
  }

  // ---------------------------------------------------------------------------
  // The load/save policy
  // ---------------------------------------------------------------------------

  function Zeroes(n: nat): (z: seq<Uint8>)
    ensures |z| == n && forall i :: 0 <= i < n ==> z[i] == 0
  {
    seq(n, _ => 0)
  }

  /** memset(&currentConfig, 0, sizeof(Config)) followed by configured = false. */
  const DefaultConfig: Config := Config(
    Zeroes(SSID_SIZE), Zeroes(PASSWORD_SIZE), Zeroes(URL_SIZE), Zeroes(TOKEN_SIZE),
    Zeroes(ENTITY_SIZE), Zeroes(ENTITY_SIZE), Zeroes(ENTITY_SIZE),
    Zeroes(ENTITY_SIZE), Zeroes(ENTITY_SIZE), Zeroes(ENTITY_SIZE), false)

  /** What reset() stores: the zero record, marked as configured. */
  const ResetConfig: Config := DefaultConfig.(configured := true)

  /** The record with every buffer's last byte forced to NUL. */
  function Sanitized(c: Config): (r: Config)
    requires WellSized(c)
    ensures WellSized(r) && AllTerminated(r)
  {
    c.(ssid := Terminate(c.ssid),
       password := Terminate(c.password),
       entityPower := Terminate(c.entityPower),
       entityEnergy := Terminate(c.entityEnergy),
       entityVoltage := Terminate(c.entityVoltage),
       entityCurrent := Terminate(c.entityCurrent),
       entityFrequency := Terminate(c.entityFrequency),
       entityPowerFactor := Terminate(c.entityPowerFactor),
       homeAssistantToken := Terminate(c.homeAssistantToken),
       homeAssistantUrl := Terminate(c.homeAssistantUrl))
  }

  /** A sanitized record is kept only when it is marked configured and names a network. */
  predicate Usable(c: Config) {
    c.configured && CStrLen(c.ssid) != 0
  }

  /** The record load() ends with, given the stored image. */
  function Loaded(stored: Config): Config
    requires WellSized(stored)
  {
    var c := Sanitized(stored);
    if Usable(c) then c else DefaultConfig
  }

  /** The default record is well sized, terminated and not usable. */
  lemma DefaultConfigShape()
    ensures WellSized(DefaultConfig) && AllTerminated(DefaultConfig)
    ensures !Usable(DefaultConfig) && !Usable(ResetConfig)
  {
  }

  /** Two buffers that agree except possibly in the last byte. */
  predicate SameButLast(a: seq<Uint8>, b: seq<Uint8>) {
    |a| == |b| && |a| > 0 && a[..|a| - 1] == b[..|b| - 1]
  }

  /**
   After load() every buffer ends with NUL, and either the stored image was kept
   (marked configured, with a non-empty SSID, and equal to the image apart from
   the forced terminators) or the record is the zero default, not configured.
   The SSID counts as non-empty exactly when the stored image's first SSID byte
   is not NUL.
   */
  lemma LoadedCases(stored: Config)
    requires WellSized(stored)
    ensures WellSized(Loaded(stored)) && AllTerminated(Loaded(stored))
    ensures Loaded(stored).configured <==> stored.configured && stored.ssid[0] != 0
    ensures Loaded(stored).configured ==>
      var c := Loaded(stored);
      CStrLen(c.ssid) != 0
      && SameButLast(c.ssid, stored.ssid) && SameButLast(c.password, stored.password)
      && SameButLast(c.homeAssistantUrl, stored.homeAssistantUrl)
      && SameButLast(c.homeAssistantToken, stored.homeAssistantToken)
      && SameButLast(c.entityPower, stored.entityPower) && SameButLast(c.entityVoltage, stored.entityVoltage)
      && SameButLast(c.entityCurrent, stored.entityCurrent) && SameButLast(c.entityEnergy, stored.entityEnergy)
      && SameButLast(c.entityFrequency, stored.entityFrequency)
      && SameButLast(c.entityPowerFactor, stored.entityPowerFactor)
    ensures !Loaded(stored).configured ==> Loaded(stored) == DefaultConfig
  {
    DefaultConfigShape();
    var c := Sanitized(stored);
    assert c.ssid[0] == stored.ssid[0];
  }

  /** A record saved by reset() is replaced by the defaults on the next load(): its SSID is empty. */
  lemma ResetIsRejectedByLoad()
    ensures WellSized(ResetConfig)
    ensures Loaded(ResetConfig) == DefaultConfig
  {
    DefaultConfigShape();
    assert Sanitized(ResetConfig).ssid[0] == 0;
  }

  /** A saved record that is terminated and names a network reads back unchanged. */
  lemma SaveThenLoad(c: Config)
    requires WellSized(c) && AllTerminated(c) && CStrLen(c.ssid) != 0
    ensures Loaded(c.(configured := true)) == c.(configured := true)
  {
    var s := c.(configured := true);
    assert Sanitized(s) == s;
  }

  /** Loading what load() produced changes nothing. */
  lemma LoadIdempotent(stored: Config)
    requires WellSized(stored)
    ensures WellSized(Loaded(stored))
    ensures Loaded(Loaded(stored)) == Loaded(stored)
  {
    LoadedCases(stored);
    var c := Loaded(stored);
    if c.configured {
      SaveThenLoad(c);
      assert c.(configured := true) == c;
    } else {
      DefaultConfigShape();
      assert Sanitized(DefaultConfig) == DefaultConfig;
    }
  }

  // ---------------------------------------------------------------------------
  // The ConfigManager object
  // ---------------------------------------------------------------------------

  class ConfigManager {
    /** The record the rest of the firmware reads. */
    var currentConfig: Config
    /** The EEPROM image at offset 0: one Config. */
    var eeprom: Config

    ghost predicate Valid()
      reads this
    {
      WellSized(currentConfig) && WellSized(eeprom)
    }

    /** A manager in static storage (a zero record) over an EEPROM that holds `stored`. */
    constructor (stored: Config)
      requires WellSized(stored)
      ensures Valid()
      ensures currentConfig == DefaultConfig && eeprom == stored
    {
      currentConfig := DefaultConfig;
      eeprom := stored;
    }

    /** setDefaultConfig(): the zero record, not configured. The EEPROM is untouched. */
    method SetDefaultConfig()
      requires Valid()
      modifies this
      ensures Valid()
      ensures currentConfig == DefaultConfig && eeprom == old(eeprom)
    {
      currentConfig := DefaultConfig;
    }

    /**
     load(): read the image, force a NUL into the last byte of every buffer, and
     fall back to the defaults unless the result is configured and names a network.
     */
    method Load()
      requires Valid()
      modifies this
      ensures Valid()
      ensures currentConfig == Loaded(eeprom) && eeprom == old(eeprom)
    {
      currentConfig := eeprom;
      currentConfig := currentConfig.(ssid := Terminate(currentConfig.ssid));
      currentConfig := currentConfig.(password := Terminate(currentConfig.password));
      currentConfig := currentConfig.(entityPower := Terminate(currentConfig.entityPower));
      currentConfig := currentConfig.(entityEnergy := Terminate(currentConfig.entityEnergy));
      currentConfig := currentConfig.(entityVoltage := Terminate(currentConfig.entityVoltage));
      currentConfig := currentConfig.(entityCurrent := Terminate(currentConfig.entityCurrent));
      currentConfig := currentConfig.(entityFrequency := Terminate(currentConfig.entityFrequency));
      currentConfig := currentConfig.(entityPowerFactor := Terminate(currentConfig.entityPowerFactor));
      currentConfig := currentConfig.(homeAssistantToken := Terminate(currentConfig.homeAssistantToken));
      currentConfig := currentConfig.(homeAssistantUrl := Terminate(currentConfig.homeAssistantUrl));
      if !currentConfig.configured || CStrLen(currentConfig.ssid) == 0 {
        SetDefaultConfig();
        DefaultConfigShape();
      }
    }

    /** begin(): EEPROM.begin(EEPROM_SIZE) and load(). */
    method Begin()
      requires Valid()
      modifies this
      ensures Valid()
      ensures currentConfig == Loaded(eeprom) && eeprom == old(eeprom)
    {
      Load();
    }

    /** save(): mark the record configured and write it to the EEPROM. */
    method Save()
      requires Valid()
      modifies this
      ensures Valid()
      ensures currentConfig == old(currentConfig).(configured := true)
      ensures eeprom == currentConfig
    {
      currentConfig := currentConfig.(configured := true);
      eeprom := currentConfig;
    }

    /** reset(): the defaults, saved; the stored record is configured but empty. */
    method Reset()
      requires Valid()
      modifies this
      ensures Valid()
      ensures currentConfig == ResetConfig && eeprom == ResetConfig
    {
      SetDefaultConfig();
      Save();
      DefaultConfigShape();
    }
  }
}
