/** MIDI 1.0 channel voice messages as the plugin reads them: the status byte,
    its channel nibble and its message type, and the data bytes. */
module Midi {

  /** One byte of a message (`uint8_t` in the plugin). */
  type Byte = bv8

  /** The synthesis engine has three voices; channels 0..2 address them. */
  const Voices: nat := 3

  type Voice = c: int | 0 <= c < Voices

  // Message types: the high nibble of a channel voice status byte.
  const NoteOffType: Byte := 0x80
  const NoteOnType: Byte := 0x90
  const ControllerType: Byte := 0xB0
  const ProgramType: Byte := 0xC0
  const BenderType: Byte := 0xE0

  // Controller numbers: bank select (MSB), main volume (MSB) and pan (MSB) are
  // the standard MIDI 1.0 assignments; 0x10..0x13 and 0x50 are the plugin's own.
  const BankSelectCC: Byte := 0x00
  const MainVolumeCC: Byte := 0x07
  const PanCC: Byte := 0x0A
  const EnvelopeHighCC: Byte := 0x10
  const EnvelopeMidCC: Byte := 0x11
  const EnvelopeLowCC: Byte := 0x12
  const EnvelopeShapeCC: Byte := 0x13
  const RemoveDcCC: Byte := 0x50

  /** Byte `i` of a message. The plugin reads the status byte and two data bytes
      whatever the event's size; a byte past the end of `msg` reads as 0. */
  function Data(msg: seq<Byte>, i: nat): Byte
  {
    if i < |msg| then msg[i] else 0
  }

  /** The low nibble of the status byte. */
  function Channel(msg: seq<Byte>): Byte
  {
    Data(msg, 0) & 0x0F
  }

  /** The message type of a status byte, as the LV2 MIDI header defines it: the
      high nibble for a channel voice status (0x80..0xEF), the byte itself for a
      system status (0xF0..0xFF except the undefined 0xF4, 0xF5, 0xF9 and 0xFD,
      and 0xF7), and 0 ("invalid") for anything else. */
  function MessageType(status: Byte): (t: Byte)
    ensures 0x80 <= status < 0xF0 ==> t == status & 0xF0
    ensures t in {NoteOffType, NoteOnType, ControllerType, ProgramType, BenderType} <==>
      0x80 <= status < 0xF0 && status & 0xF0 in {NoteOffType, NoteOnType, ControllerType, ProgramType, BenderType}
  {
    if 0x80 <= status < 0xF0 then status & 0xF0
    else if 0xF0 <= status && status !in {0xF4, 0xF5, 0xF7, 0xF9, 0xFD} then status
    else 0
  }

  /** A status byte of type `t` addressing one of the three voices. */
  predicate VoiceStatus(status: Byte, t: Byte)
  {
    status & 0xF0 == t && status & 0x0F < 3
  }

  /** The voice a status byte addresses. */
  function VoiceOf(status: Byte): Voice
    requires status & 0x0F < 3
  {
    (status & 0x0F) as int
  }

  function Pow2(k: nat): (p: nat)
    ensures p >= 1
  {
    if k == 0 then 1 else 2 * Pow2(k - 1)
  }

  /** Bit `k` of `x`, which the plugin writes `(x >> k) & 1`; the values it is
      applied to are never negative, where shifting is division by 2^k. */
  function Bit(x: int, k: nat): (b: int)
    ensures b == 0 || b == 1
  {
    x / Pow2(k) % 2
  }
}
