/** The MIDI event decoder of the plugin (`ayumi_lv2_process_midi_event`) as a
    function from the decoder's state and one message to the new state and the
    engine calls it makes. The `Handle` class in module Plugin runs it in place. */
module Decoder {
  import opened Midi
  import opened Engine

  /** The decoder's part of the plugin handle: each voice's stored mixer byte and
      note gate, the envelope period assembled from controller writes, and the
      last pitch bend. */
  datatype Synth = Synth(mixer: seq<int>, envelope: bv32, pitchbend: int, noteOn: seq<bool>)
  {
    /** One mixer byte and one note gate per voice, as in the handle's arrays. */
    predicate Valid()
    {
      |mixer| == Voices && |noteOn| == Voices
    }

    /** Every stored mixer value is a byte. */
    predicate MixerBytes()
      requires Valid()
    {
      forall i :: 0 <= i < Voices ==> 0 <= mixer[i] < 256
    }
  }

  /** The new state and the engine calls, in order, that one message causes. */
  datatype Step = Step(state: Synth, commands: seq<Command>)

  /** The state `ayumi_lv2_instantiate` leaves: the handle is zeroed and each
      voice's mixer byte is `1 << 6`. */
  function Initial(): (s: Synth)
    ensures s.Valid() && s.MixerBytes()
    ensures forall ch :: 0 <= ch < Voices ==>
      !s.noteOn[ch] && Bit(s.mixer[ch], 5) == 0 && Bit(s.mixer[ch], 6) == 1 && Bit(s.mixer[ch], 7) == 0
  {
    Synth([64, 64, 64], 0, 0, [false, false, false])
  }

  /** What every handler promises about its step `r` from state `s` for a
      message on channel `ch`: the state keeps its shape and its mixer bytes,
      no audio is rendered, every engine call is within the engine's ranges,
      and every voice other than `ch` keeps its mixer byte and note gate. */
  predicate Confined(s: Synth, ch: int, r: Step)
    requires s.Valid()
  {
    && r.state.Valid()
    && (s.MixerBytes() ==> r.state.MixerBytes())
    && Process !in r.commands
    && (forall c :: c in r.commands ==> InRange(c))
    && (forall i :: 0 <= i < Voices && i != ch ==>
          r.state.mixer[i] == s.mixer[i] && r.state.noteOn[i] == s.noteOn[i])
  }

  /** A state's unchanged step: no new state and no engine call. */
  function Ignore(s: Synth): Step
  {
    Step(s, [])
  }

  /** Note-off (and note-on with velocity 0): silence a sounding voice, and do
      nothing for a silent one. */
  function NoteOff(s: Synth, ch: Voice): (r: Step)
    requires s.Valid()
    ensures Confined(s, ch, r)
  {
    if !s.noteOn[ch] then Ignore(s)
    else Step(s.(noteOn := s.noteOn[ch := false]), [SetMixer(ch, 1, 1, 0)])
  }

  /** Note-on: a sounding voice is busy and ignores it; otherwise the switches at
      bits 5, 6 and 7 of the voice's mixer byte go to the engine, then the key. */
  function NoteOn(s: Synth, ch: Voice, key: Byte): (r: Step)
    requires s.Valid()
    ensures Confined(s, ch, r)
  {
    if s.noteOn[ch] then Ignore(s)
    else
      var m := s.mixer[ch];
      Step(s.(noteOn := s.noteOn[ch := true]), [SetMixer(ch, Bit(m, 5), Bit(m, 6), Bit(m, 7)), SetTone(ch, key as int)])
  }

  /** Program change: the low five bits of the program select the noise period;
      its bits 5 and 6 become the tone and noise switches, the envelope switch is
      bit 7 of the previous mixer byte, and the program is the new mixer byte. */
  function ProgramChange(s: Synth, ch: Voice, program: Byte): (r: Step)
    requires s.Valid()
    ensures Confined(s, ch, r)
  {
    var p := program as int;
    Step(s.(mixer := s.mixer[ch := p]),
         [SetNoise((program & 0x1F) as int), SetMixer(ch, Bit(p, 5), Bit(p, 6), Bit(s.mixer[ch], 7))])
  }

  /** Control change, dispatched on the controller number. Bank select takes its
      switches from bits 0, 1 and 2 of the controller number itself (which is 0),
      not from the value. */
  function ControlChange(s: Synth, ch: Voice, cc: Byte, value: Byte): (r: Step)
    requires s.Valid()
    ensures Confined(s, ch, r)
  {
    if cc == BankSelectCC then
      var m := cc as int;
      Step(s.(mixer := s.mixer[ch := m]), [SetMixer(ch, Bit(m, 0), Bit(m, 1), Bit(m, 2))])
    else if cc == PanCC then
      Step(s, [SetPan(ch, value as int)])
    else if cc == MainVolumeCC then
      Step(s, [SetVolume(ch, ((if value > 119 then 119 else value) / 8) as int)])
    else if cc == EnvelopeHighCC then
      var e := (s.envelope & 0x3FFF) + ((value as bv32) << 14);
      Step(s.(envelope := e), [SetEnvelope(e)])
    else if cc == EnvelopeMidCC then
      var e := (s.envelope & 0xC07F) + ((value as bv32) << 7);
      Step(s.(envelope := e), [SetEnvelope(e)])
    else if cc == EnvelopeLowCC then
      var e := (s.envelope & 0xFF80) + (value as bv32);
      Step(s.(envelope := e), [SetEnvelope(e)])
    else if cc == EnvelopeShapeCC then
      Step(s, [SetEnvelopeShape((value & 0x0F) as int)])
    else if cc == RemoveDcCC then
      Step(s, [RemoveDc])
    else
      Ignore(s)
  }

  /** True of the messages the decoder acts on at all: a channel voice message of
      a handled type, on one of the three voices. */
  predicate Recognized(msg: seq<Byte>)
  {
    Channel(msg) < 3 &&
    MessageType(Data(msg, 0)) in {NoteOffType, NoteOnType, ControllerType, ProgramType, BenderType}
  }

  /** One message: drop it unless it addresses voice 0..2, then dispatch on its
      type. */
  function Decode(s: Synth, msg: seq<Byte>): (r: Step)
    requires s.Valid()
    ensures Confined(s, Channel(msg) as int, r)
    // A message the decoder does not act on changes nothing.
    ensures !Recognized(msg) ==> r == Ignore(s)
  {
    if Channel(msg) > 2 then Ignore(s)
    else VoiceMessage(s, Channel(msg) as int, MessageType(Data(msg, 0)), Data(msg, 1), Data(msg, 2))
  }

  /** A message of type `t` with data bytes `data1` and `data2` for voice `ch`.
      Pitch bend is stored with the first data byte as the high seven bits, and
      has no other effect. */
  function VoiceMessage(s: Synth, ch: Voice, t: Byte, data1: Byte, data2: Byte): (r: Step)
    requires s.Valid()
    ensures Confined(s, ch, r)
    ensures t !in {NoteOffType, NoteOnType, ControllerType, ProgramType, BenderType} ==> r == Ignore(s)
  {
    if t == NoteOffType || (t == NoteOnType && data2 == 0) then NoteOff(s, ch)
    else if t == NoteOnType then NoteOn(s, ch, data1)
    else if t == ProgramType then ProgramChange(s, ch, data1)
    else if t == ControllerType then ControlChange(s, ch, data1, data2)
    else if t == BenderType then Step(s.(pitchbend := (data1 as int) * 128 + data2 as int), [])
    else Ignore(s)
  }

  /** A note-off for voice `ch`: a note-off message, or a note-on with velocity 0. */
  predicate IsNoteOff(msg: seq<Byte>, ch: Voice)
  {
    Channel(msg) as int == ch &&
    (MessageType(Data(msg, 0)) == NoteOffType || (MessageType(Data(msg, 0)) == NoteOnType && Data(msg, 2) == 0))
  }

  /** A note-on for voice `ch` with a non-zero velocity. */
  predicate IsNoteOn(msg: seq<Byte>, ch: Voice)
  {
    Channel(msg) as int == ch && MessageType(Data(msg, 0)) == NoteOnType && Data(msg, 2) != 0
  }

  /** A note-off clears the voice's gate and changes nothing else; it silences the
      voice exactly when the voice was sounding, so a second note-off is a no-op. */
  lemma NoteOffGate(s: Synth, msg: seq<Byte>, ch: Voice)
    requires s.Valid() && IsNoteOff(msg, ch)
    ensures Decode(s, msg).state == s.(noteOn := s.noteOn[ch := false])
    ensures Decode(s, msg).commands == if s.noteOn[ch] then [SetMixer(ch, 1, 1, 0)] else []
    ensures Decode(Decode(s, msg).state, msg) == Ignore(Decode(s, msg).state)
  {
  }

  /** A note-on sets the voice's gate and changes nothing else; a silent voice
      gets the switches at bits 5, 6 and 7 of its mixer byte and then the key, a
      sounding one nothing, so a second note-on is a no-op. */
  lemma NoteOnGate(s: Synth, msg: seq<Byte>, ch: Voice)
    requires s.Valid() && IsNoteOn(msg, ch)
    ensures Decode(s, msg).state == s.(noteOn := s.noteOn[ch := true])
    ensures Decode(s, msg).commands ==
      if s.noteOn[ch] then []
      else [SetMixer(ch, Bit(s.mixer[ch], 5), Bit(s.mixer[ch], 6), Bit(s.mixer[ch], 7)), SetTone(ch, Data(msg, 1) as int)]
    ensures Decode(Decode(s, msg).state, msg) == Ignore(Decode(s, msg).state)
  {
  }

  /** From the initial state, the first note-on on a voice turns its mixer
      switches to (0, 1, 0), read from the initial mixer byte `1 << 6`. */
  lemma InitialNoteOn(status: Byte, key: Byte, velocity: Byte)
    requires VoiceStatus(status, NoteOnType) && velocity != 0
    ensures Decode(Initial(), [status, key, velocity]).commands ==
      [SetMixer(VoiceOf(status), 0, 1, 0), SetTone(VoiceOf(status), key as int)]
  {
    assert Bit(64, 5) == 0 && Bit(64, 6) == 1 && Bit(64, 7) == 0;
  }

  /** A program change selects the noise period from the program's low five
      bits, sends the program's bits 5 and 6 with the old envelope switch, and
      stores the program as the voice's mixer byte. */
  lemma ProgramChangeStores(s: Synth, status: Byte, program: Byte)
    requires s.Valid() && VoiceStatus(status, ProgramType)
    ensures var ch := VoiceOf(status); var p := program as int;
      && Decode(s, [status, program]).state == s.(mixer := s.mixer[ch := p])
      && Decode(s, [status, program]).commands ==
           [SetNoise(p % 32), SetMixer(ch, Bit(p, 5), Bit(p, 6), Bit(s.mixer[ch], 7))]
  {
    ProgramDispatch(s, status, program);
    LowBits(program);
  }

  /** A program change on a voice is dispatched to the program handler. */
  lemma ProgramDispatch(s: Synth, status: Byte, program: Byte)
    requires s.Valid() && VoiceStatus(status, ProgramType)
    ensures Decode(s, [status, program]) == ProgramChange(s, VoiceOf(status), program)
  {
  }

  /** After a program change on a silent voice, the next note-on sends the
      switches stored by that program change (bits 5, 6 and 7 of the program),
      not those stored before it. */
  lemma ProgramThenNoteOn(s: Synth, program: Byte, on: Byte, key: Byte, velocity: Byte)
    requires s.Valid() && VoiceStatus(on, NoteOnType) && !s.noteOn[VoiceOf(on)] && velocity != 0
    ensures var ch := VoiceOf(on); var p := program as int;
      var t := Decode(s, [ProgramType | (on & 0x0F), program]).state;
      Decode(t, [on, key, velocity]).commands == [SetMixer(ch, Bit(p, 5), Bit(p, 6), Bit(p, 7)), SetTone(ch, key as int)]
  {
  }

  /** A control change on a voice is dispatched to the controller handler. */
  lemma ControllerDispatch(s: Synth, status: Byte, cc: Byte, value: Byte)
    requires s.Valid() && VoiceStatus(status, ControllerType)
    ensures Decode(s, [status, cc, value]) == ControlChange(s, VoiceOf(status), cc, value)
  {
  }

  /** Envelope controller 0x12 with a 7-bit value: bits 0-6 of the period become
      the value, bits 7-15 are kept, higher bits are cleared, and the whole new
      period goes to the engine. */
  lemma EnvelopeLowWrite(s: Synth, status: Byte, value: Byte)
    requires s.Valid() && VoiceStatus(status, ControllerType) && value < 128
    ensures var r := Decode(s, [status, EnvelopeLowCC, value]);
      var e := r.state.envelope;
      && r.state == s.(envelope := e)
      && r.commands == [SetEnvelope(e)]
      && e & 0x7F == value as bv32
      && e & 0xFF80 == s.envelope & 0xFF80
      && e >> 16 == 0
  {
  }

  /** Envelope controller 0x11 with a 7-bit value: bits 7-13 of the period become
      the value, bits 0-6 and 14-15 are kept, higher bits are cleared. */
  lemma EnvelopeMidWrite(s: Synth, status: Byte, value: Byte)
    requires s.Valid() && VoiceStatus(status, ControllerType) && value < 128
    ensures var r := Decode(s, [status, EnvelopeMidCC, value]);
      var e := r.state.envelope;
      && r.state == s.(envelope := e)
      && r.commands == [SetEnvelope(e)]
      && (e >> 7) & 0x7F == value as bv32
      && e & 0xC07F == s.envelope & 0xC07F
      && e >> 16 == 0
  {
  }

  /** Envelope controller 0x10: bits 0-13 of the period are kept and the value
      is placed from bit 14 up. */
  lemma EnvelopeHighWrite(s: Synth, status: Byte, value: Byte)
    requires s.Valid() && VoiceStatus(status, ControllerType)
    ensures var r := Decode(s, [status, EnvelopeHighCC, value]);
      var e := r.state.envelope;
      && r.state == s.(envelope := e)
      && r.commands == [SetEnvelope(e)]
      && e & 0x3FFF == s.envelope & 0x3FFF
      && e >> 14 == value as bv32
  {
  }

  /** Writing the middle seven bits and then the low seven bits of a 14-bit
      period reconstructs it in the low 14 bits of the envelope, whatever came
      before. */
  lemma EnvelopeMidLowRoundTrip(s: Synth, status: Byte, period: bv16)
    requires s.Valid() && VoiceStatus(status, ControllerType) && period < 0x4000
    ensures var m := Decode(s, [status, EnvelopeMidCC, (period >> 7) as bv8]).state;
      var l := Decode(m, [status, EnvelopeLowCC, (period & 0x7F) as bv8]).state;
      l.envelope & 0x3FFF == period as bv32
  {
    var mid, low := (period >> 7) as bv8, (period & 0x7F) as bv8;
    ControllerDispatch(s, status, EnvelopeMidCC, mid);
    var m := Decode(s, [status, EnvelopeMidCC, mid]).state;
    ControllerDispatch(m, status, EnvelopeLowCC, low);
    JoinMidLow(s.envelope, period);
  }

  lemma JoinMidLow(e: bv32, period: bv16)
    requires period < 0x4000
    ensures var m := (e & 0xC07F) + ((((period >> 7) as bv8) as bv32) << 7);
      ((m & 0xFF80) + (((period & 0x7F) as bv8) as bv32)) & 0x3FFF == period as bv32
  {
  }

  /** Writing the high, middle and low parts of a 16-bit period, in that order,
      leaves exactly that period in the envelope. */
  lemma EnvelopeRoundTrip(s: Synth, status: Byte, period: bv16)
    requires s.Valid() && VoiceStatus(status, ControllerType)
    ensures var h := Decode(s, [status, EnvelopeHighCC, (period >> 14) as bv8]).state;
      var m := Decode(h, [status, EnvelopeMidCC, ((period >> 7) & 0x7F) as bv8]).state;
      var l := Decode(m, [status, EnvelopeLowCC, (period & 0x7F) as bv8]).state;
      l.envelope == period as bv32
  {
    var high, mid, low := (period >> 14) as bv8, ((period >> 7) & 0x7F) as bv8, (period & 0x7F) as bv8;
    ControllerDispatch(s, status, EnvelopeHighCC, high);
    var h := Decode(s, [status, EnvelopeHighCC, high]).state;
    ControllerDispatch(h, status, EnvelopeMidCC, mid);
    var m := Decode(h, [status, EnvelopeMidCC, mid]).state;
    ControllerDispatch(m, status, EnvelopeLowCC, low);
    JoinHighMidLow(s.envelope, period);
  }

  lemma JoinHighMidLow(e: bv32, period: bv16)
    ensures var h := (e & 0x3FFF) + ((((period >> 14) as bv8) as bv32) << 14);
      var m := (h & 0xC07F) + ((((period >> 7) & 0x7F) as bv8) as bv32 << 7);
      (m & 0xFF80) + (((period & 0x7F) as bv8) as bv32) == period as bv32
  {
  }

  /** Main volume sends the value divided by 8, capped at 119 / 8 = 14. */
  lemma VolumeLevel(s: Synth, status: Byte, value: Byte)
    requires s.Valid() && VoiceStatus(status, ControllerType)
    ensures var r := Decode(s, [status, MainVolumeCC, value]);
      && r.state == s && |r.commands| == 1
      && r.commands[0].SetVolume? && r.commands[0].voice == VoiceOf(status)
      && 0 <= r.commands[0].volume <= 14
      && (value < 120 ==> r.commands[0].volume == value as int / 8)
      && (value >= 112 ==> r.commands[0].volume == 14)
  {
  }

  /** The envelope-shape controller sends the value's low four bits. */
  lemma ShapeNibble(s: Synth, status: Byte, value: Byte)
    requires s.Valid() && VoiceStatus(status, ControllerType)
    ensures Decode(s, [status, EnvelopeShapeCC, value]) == Step(s, [SetEnvelopeShape(value as int % 16)])
  {
    LowNibble(value);
  }

  lemma LowBits(x: Byte)
    ensures (x & 0x1F) as int == x as int % 32
  {
  }

  lemma LowNibble(x: Byte)
    ensures (x & 0x0F) as int == x as int % 16
  {
  }

  /** Controller 0x50 only asks the engine to remove its DC offset; pan only
      forwards its value. */
  lemma RemoveDcAndPan(s: Synth, status: Byte, value: Byte)
    requires s.Valid() && VoiceStatus(status, ControllerType)
    ensures Decode(s, [status, RemoveDcCC, value]) == Step(s, [RemoveDc])
    ensures Decode(s, [status, PanCC, value]) == Step(s, [SetPan(VoiceOf(status), value as int)])
  {
  }

  /** Bank select clears the voice's mixer byte and turns all three switches to
      0, whatever its value byte says. */
  lemma BankSelectClears(s: Synth, status: Byte, value: Byte)
    requires s.Valid() && VoiceStatus(status, ControllerType)
    ensures var ch := VoiceOf(status);
      Decode(s, [status, BankSelectCC, value]) == Step(s.(mixer := s.mixer[ch := 0]), [SetMixer(ch, 0, 0, 0)])
  {
  }

  /** A controller number the plugin does not assign has no effect. */
  lemma UnassignedControllerIgnored(s: Synth, status: Byte, cc: Byte, value: Byte)
    requires s.Valid() && VoiceStatus(status, ControllerType)
    requires cc !in {BankSelectCC, MainVolumeCC, PanCC, EnvelopeHighCC, EnvelopeMidCC, EnvelopeLowCC, EnvelopeShapeCC, RemoveDcCC}
    ensures Decode(s, [status, cc, value]) == Ignore(s)
  {
  }

  /** Pitch bend stores the first data byte as the high seven bits and the
      second as the low seven, and makes no engine call; for 7-bit data bytes the
      stored value is 14-bit and gives both bytes back. */
  lemma PitchBendStored(s: Synth, status: Byte, first: Byte, second: Byte)
    requires s.Valid() && VoiceStatus(status, BenderType)
    ensures var r := Decode(s, [status, first, second]);
      && r.commands == []
      && r.state.pitchbend == first as int * 128 + second as int
      && r.state == s.(pitchbend := r.state.pitchbend)
      && (first < 128 && second < 128 ==>
            && 0 <= r.state.pitchbend < 0x4000
            && r.state.pitchbend / 128 == first as int
            && r.state.pitchbend % 128 == second as int)
  {
  }
}
