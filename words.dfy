/**
 Option, as used by the lookups of the model (a JSON member that may be absent,
 a string field that may be null).
 */
module Wrappers {
  datatype Option<+T> = None | Some(value: T)
}

/**
 Machine words of the ESP32 target and Arduino's decimal rendering of integers
 (`String(unsigned long)`, `String(int)`).
 */
module Words {

  /** uint8_t: one byte of a char buffer or of the EEPROM image. */
  type Uint8 = x: int | 0 <= x < 0x100

  /** uint16_t: one Modbus register. */
  type Uint16 = x: int | 0 <= x < 0x1_0000

  /** uint32_t and, on the 32-bit ESP32, unsigned long (the type of millis()). */
  type Uint32 = x: int | 0 <= x < 0x1_0000_0000

  const TWO_TO_THE_16: int := 0x1_0000
  const TWO_TO_THE_32: int := 0x1_0000_0000

  predicate IsDigit(c: char) {
    '0' <= c <= '9'
  }

  function DigitChar(d: int): (c: char)
    requires 0 <= d < 10
    ensures IsDigit(c) && c as int - '0' as int == d
  {
    (('0' as int) + d) as char
  }

  /** The decimal digits of n, most significant first, without leading zeros. */
  function NatToString(n: nat): (s: string)
    ensures |s| >= 1
    ensures forall i :: 0 <= i < |s| ==> IsDigit(s[i])
    ensures |s| > 1 ==> s[0] != '0'
    decreases n
  {
    if n < 10 then [DigitChar(n)] else NatToString(n / 10) + [DigitChar(n % 10)]
  }

  /** The number a string of decimal digits denotes. */
  function DecimalValue(s: string): nat
    requires forall i :: 0 <= i < |s| ==> IsDigit(s[i])
  {
    if s == [] then 0
    else
      assert IsDigit(s[|s| - 1]);
      10 * DecimalValue(s[..|s| - 1]) + (s[|s| - 1] as int - '0' as int)
  }

  /** Rendering in decimal loses nothing: the digits read back as the number. */
  lemma {:induction false} NatToStringRoundTrip(n: nat)
    ensures DecimalValue(NatToString(n)) == n
    decreases n
  {
    if n >= 10 {
      NatToStringRoundTrip(n / 10);
      var s := NatToString(n);
      assert s[..|s| - 1] == NatToString(n / 10);
    }
  }

  /** Distinct numbers render as distinct strings. */
  lemma NatToStringInjective(m: nat, n: nat)
    requires NatToString(m) == NatToString(n)
    ensures m == n
  {
    NatToStringRoundTrip(m);
    NatToStringRoundTrip(n);
  }

  /** String(int): a minus sign for negative values, then the digits of the magnitude. */
  function IntToString(i: int): (s: string)
    ensures i >= 0 ==> s == NatToString(i)
    ensures i < 0 ==> |s| >= 2 && s[0] == '-' && s[1..] == NatToString(-i)
  {
    if i < 0 then "-" + NatToString(-i) else NatToString(i)
  }
}
