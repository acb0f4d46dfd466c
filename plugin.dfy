/** The plugin instance (`AyumiLV2Handle`) and the entry points that change it:
    instantiate, activate, deactivate, the MIDI event handler and the block
    render loop. Each method is proved against the functions of modules Decoder
    and RenderLoop. */
module Plugin {
  import opened Midi
  import opened Engine
  import opened Decoder
  import opened RenderLoop

  class Handle {
    /** Each voice's mixer byte, read by note-on. */
    var mixer: array<int>
    /** The envelope period assembled from controller writes. */
    var envelope: bv32
    /** The last pitch bend; stored and otherwise unused. */
    var pitchbend: int
    /** Each voice's note gate. */
    var noteOnState: array<bool>
    /** Whether the host has activated the instance. */
    var active: bool
    /** Every call made to the engine since instantiation, in order. */
    var trace: seq<Command>
    /** The engine's sample clock: the number of samples it has rendered. The
        value of the k-th sample is modelled as k. */
    var steps: nat

    ghost predicate Valid()
      reads this, mixer, noteOnState
    {
      && mixer.Length == Voices
      && noteOnState.Length == Voices
      && (forall i :: 0 <= i < Voices ==> 0 <= mixer[i] < 256)
      && steps == Steps(trace)
    }

    /** The decoder's view of the handle. */
    function State(): Synth
      reads this`mixer, this`envelope, this`pitchbend, this`noteOnState, mixer, noteOnState
    {
      Synth(mixer[..], envelope, pitchbend, noteOnState[..])
    }

    lemma ValidState()
      requires Valid()
      ensures State().Valid() && State().MixerBytes()
    {
    }

    /** `ayumi_lv2_instantiate`: a zeroed handle, inactive, with every voice's
        mixer byte `1 << 6`, after the engine's set-up calls. */
    constructor (sampleRate: int)
      ensures Valid() && fresh(mixer) && fresh(noteOnState)
      ensures State() == Initial() && !active
      ensures trace == InstantiateCalls(sampleRate) && steps == 0
    {
      var m := new int[Voices](_ => 0);
      var calls := [Configure(1, 2000000, sampleRate), SetNoise(4)];
      var i := 0;
      while i < Voices
        invariant 0 <= i <= Voices
        invariant Process !in calls
        invariant forall j :: 0 <= j < i ==> m[j] == 64
        invariant forall j :: i <= j < Voices ==> m[j] == 0
        invariant calls == [Configure(1, 2000000, sampleRate), SetNoise(4)] + VoiceSetups(i)
      {
        m[i] := 64;
        calls := calls + VoiceSetup(i);
        i := i + 1;
      }
      var n := new bool[Voices](_ => false);
      assert m[..] == [64, 64, 64];
      assert n[..] == [false, false, false];
      mixer, noteOnState := m, n;
      envelope, pitchbend := 0, 0;
      active := false;
      trace := calls;
      steps := 0;
      StepsWithout(calls);
    }

    /** `ayumi_lv2_activate`. */
    method Activate()
      modifies this`active
      ensures active
    {
      active := true;
    }

    /** `ayumi_lv2_deactivate`. */
    method Deactivate()
      modifies this`active
      ensures !active
    {
      active := false;
    }

    /** `ayumi_lv2_process_midi_event`: one message, decoded in place. */
    method ProcessMidiEvent(msg: seq<Byte>)
      requires Valid()
      modifies this`envelope, this`pitchbend, this`trace, mixer, noteOnState
      ensures Valid()
      ensures State() == Decode(old(State()), msg).state
      ensures trace == old(trace) + Decode(old(State()), msg).commands
    {
      var channel := Data(msg, 0) & 0x0F;
      if channel > 2 {
        return;
      }
      VoiceMessage(channel as int, MessageType(Data(msg, 0)), Data(msg, 1), Data(msg, 2));
    }

    /** The dispatch of `ayumi_lv2_process_midi_event` on the message type. */
    method VoiceMessage(ch: Voice, t: Byte, data1: Byte, data2: Byte)
      requires Valid()
      modifies this`envelope, this`pitchbend, this`trace, mixer, noteOnState
      ensures Valid()
      ensures State() == Decoder.VoiceMessage(old(State()), ch, t, data1, data2).state
      ensures trace == old(trace) + Decoder.VoiceMessage(old(State()), ch, t, data1, data2).commands
    {
      if t == NoteOffType || (t == NoteOnType && data2 == 0) {
        // a note-on with velocity 0 is handled as a note-off
        NoteOff(ch);
      } else if t == NoteOnType {
        NoteOn(ch, data1);
      } else if t == ProgramType {
        ProgramChange(ch, data1);
      } else if t == ControllerType {
        ControlChange(ch, data1, data2);
      } else if t == BenderType {
        pitchbend := (data1 as int) * 128 + data2 as int;
      }
    }

    /** The note-off part of `ayumi_lv2_process_midi_event`. */
    method NoteOff(ch: Voice)
      requires Valid()
      modifies this`trace, noteOnState
      ensures Valid()
      ensures State() == Decoder.NoteOff(old(State()), ch).state
      ensures trace == old(trace) + Decoder.NoteOff(old(State()), ch).commands
    {
      ghost var s := State();
      if noteOnState[ch] {
        Call(SetMixer(ch, 1, 1, 0));
        noteOnState[ch] := false;
        assert noteOnState[..] == s.noteOn[ch := false];
      }
    }

    /** The note-on part of `ayumi_lv2_process_midi_event`. */
    method NoteOn(ch: Voice, key: Byte)
      requires Valid()
      modifies this`trace, noteOnState
      ensures Valid()
      ensures State() == Decoder.NoteOn(old(State()), ch, key).state
      ensures trace == old(trace) + Decoder.NoteOn(old(State()), ch, key).commands
    {
      ghost var s := State();
      if !noteOnState[ch] {
        var m := mixer[ch];
        Call(SetMixer(ch, Bit(m, 5), Bit(m, 6), Bit(m, 7)));
        Call(SetTone(ch, key as int));
        noteOnState[ch] := true;
        assert noteOnState[..] == s.noteOn[ch := true];
      }
    }

    /** The program-change part of `ayumi_lv2_process_midi_event`. */
    method ProgramChange(ch: Voice, program: Byte)
      requires Valid()
      modifies this`trace, mixer
      ensures Valid()
      ensures State() == Decoder.ProgramChange(old(State()), ch, program).state
      ensures trace == old(trace) + Decoder.ProgramChange(old(State()), ch, program).commands
    {
      ghost var s := State();
      Call(SetNoise((program & 0x1F) as int));
      var m := program as int;
      var envelopeSwitch := Bit(mixer[ch], 7);
      mixer[ch] := m;
      assert mixer[..] == s.mixer[ch := m];
      Call(SetMixer(ch, Bit(m, 5), Bit(m, 6), envelopeSwitch));
    }

    /** One call into the engine other than rendering a sample. */
    method Call(c: Command)
      requires Valid() && c != Process
      modifies this`trace
      ensures Valid() && trace == old(trace) + [c]
    {
      StepsSnoc(trace, c);
      trace := trace + [c];
    }

    /** The controller part of `ayumi_lv2_process_midi_event`. */
    method ControlChange(ch: Voice, cc: Byte, value: Byte)
      requires Valid()
      modifies this`envelope, this`trace, mixer
      ensures Valid()
      ensures State() == Decoder.ControlChange(old(State()), ch, cc, value).state
      ensures trace == old(trace) + Decoder.ControlChange(old(State()), ch, cc, value).commands
    {
      if cc == BankSelectCC {
        BankSelect(ch, value);
      } else if cc == EnvelopeHighCC || cc == EnvelopeMidCC || cc == EnvelopeLowCC {
        EnvelopeWrite(ch, cc, value);
      } else {
        ControllerCall(ch, cc, value);
      }
    }

    /** Bank select: the voice's mixer byte becomes the controller number. */
    method BankSelect(ch: Voice, value: Byte)
      requires Valid()
      modifies this`trace, mixer
      ensures Valid()
      ensures State() == Decoder.ControlChange(old(State()), ch, BankSelectCC, value).state
      ensures trace == old(trace) + Decoder.ControlChange(old(State()), ch, BankSelectCC, value).commands
    {
      ghost var s := State();
      var m := BankSelectCC as int;
      mixer[ch] := m;
      assert mixer[..] == s.mixer[ch := m];
      Call(SetMixer(ch, Bit(m, 0), Bit(m, 1), Bit(m, 2)));
    }

    /** Controllers 0x10..0x12: one 7-bit group of the envelope period. */
    method EnvelopeWrite(ch: Voice, cc: Byte, value: Byte)
      requires Valid()
      requires cc == EnvelopeHighCC || cc == EnvelopeMidCC || cc == EnvelopeLowCC
      modifies this`envelope, this`trace
      ensures Valid()
      ensures State() == Decoder.ControlChange(old(State()), ch, cc, value).state
      ensures trace == old(trace) + Decoder.ControlChange(old(State()), ch, cc, value).commands
    {
      if cc == EnvelopeHighCC {
        envelope := (envelope & 0x3FFF) + ((value as bv32) << 14);
      } else if cc == EnvelopeMidCC {
        envelope := (envelope & 0xC07F) + ((value as bv32) << 7);
      } else {
        envelope := (envelope & 0xFF80) + (value as bv32);
      }
      Call(SetEnvelope(envelope));
    }

    /** The controllers that only pass a value on to the engine. */
    method ControllerCall(ch: Voice, cc: Byte, value: Byte)
      requires Valid()
      requires cc != BankSelectCC && cc != EnvelopeHighCC && cc != EnvelopeMidCC && cc != EnvelopeLowCC
      modifies this`trace
      ensures Valid()
      ensures State() == Decoder.ControlChange(old(State()), ch, cc, value).state
      ensures trace == old(trace) + Decoder.ControlChange(old(State()), ch, cc, value).commands
    {
      if cc == PanCC {
        Call(SetPan(ch, value as int));
      } else if cc == MainVolumeCC {
        Call(SetVolume(ch, ((if value > 119 then 119 else value) / 8) as int));
      } else if cc == EnvelopeShapeCC {
        Call(SetEnvelopeShape((value & 0x0F) as int));
      } else if cc == RemoveDcCC {
        Call(RemoveDc);
      }
    }

    /** The per-sample loop of `ayumi_lv2_run`: render frames `from` to `to - 1`
        into both output buffers. */
    method RenderFrames(from: nat, to: nat, left: array<nat>, right: array<nat>)
      requires Valid()
      requires from <= to <= left.Length && to <= right.Length
      modifies this`trace, this`steps, left, right
      ensures Valid()
      ensures trace == old(trace) + Samples(to - from)
      ensures steps == old(steps) + (to - from)
      ensures forall i :: from <= i < to ==> left[i] == old(steps) + (i - from) + 1 && right[i] == old(steps) + (i - from) + 1
      ensures forall i :: 0 <= i < left.Length && !(from <= i < to) ==> left[i] == old(left[i])
      ensures forall i :: 0 <= i < right.Length && !(from <= i < to) ==> right[i] == old(right[i])
    {
      var i := from;
      while i < to
        invariant from <= i <= to
        invariant trace == old(trace) + Samples(i - from)
        invariant steps == old(steps) + (i - from)
        invariant forall j :: from <= j < i ==> left[j] == old(steps) + (j - from) + 1 && right[j] == old(steps) + (j - from) + 1
        invariant forall j :: 0 <= j < left.Length && !(from <= j < i) ==> left[j] == old(left[j])
        invariant forall j :: 0 <= j < right.Length && !(from <= j < i) ==> right[j] == old(right[j])
      {
        trace := trace + [Process, RemoveDc];
        steps := steps + 1;
        left[i] := steps;
        right[i] := steps;
        i := i + 1;
      }
      StepsOfSamples(to - from);
      StepsAppend(old(trace), Samples(to - from));
    }

    /** The handle agrees with the loop of `ayumi_lv2_run` at point `p`, for a
        block that started with calls `t0` and sample clock `steps0`. */
    ghost predicate Follows(p: Progress, t0: seq<Command>, steps0: nat)
      reads this, mixer, noteOnState
    {
      && Valid()
      && State() == p.state
      && trace == t0 + p.trace
      && steps == steps0 + p.cursor
    }

    /** Output frames before `cursor` hold the samples the engine rendered in
        this block; the rest of each buffer is as it was (`left0`, `right0`). */
    static ghost predicate Filled(cursor: nat, steps0: nat, left: array<nat>, right: array<nat>,
                                  left0: seq<nat>, right0: seq<nat>)
      reads left, right
    {
      && cursor <= left.Length && cursor <= right.Length
      && |left0| == left.Length && |right0| == right.Length
      && (forall i :: 0 <= i < cursor ==> left[i] == steps0 + i + 1 && right[i] == steps0 + i + 1)
      && (forall i :: cursor <= i < left.Length ==> left[i] == left0[i])
      && (forall i :: cursor <= i < right.Length ==> right[i] == right0[i])
    }

    /** The part of `ayumi_lv2_run` before an event: render the frames up to
        the event's frame time, counted from the cursor, clamped to the block. */
    method Advance(ghost p: Progress, currentFrame: nat, frames: nat, sampleCount: nat,
                   left: array<nat>, right: array<nat>,
                   ghost t0: seq<Command>, ghost steps0: nat, ghost left0: seq<nat>, ghost right0: seq<nat>)
      returns (next: nat)
      requires currentFrame == p.cursor <= sampleCount <= left.Length && sampleCount <= right.Length
      requires Follows(p, t0, steps0) && Filled(p.cursor, steps0, left, right, left0, right0)
      modifies this`trace, this`steps, left, right
      ensures next == Flush(p, frames, sampleCount).cursor
      ensures Follows(Flush(p, frames, sampleCount), t0, steps0)
      ensures Filled(next, steps0, left, right, left0, right0)
    {
      next := currentFrame;
      if frames != 0 {
        var max := currentFrame + frames;
        max := if max < sampleCount then max else sampleCount;
        RenderFrames(currentFrame, max, left, right);
        next := max;
      }
      assert trace == t0 + (p.trace + Samples(next - currentFrame));
    }

    /** The part of `ayumi_lv2_run` after the last event: render the rest of
        the block. */
    method Finish(ghost h: Progress, currentFrame: nat, sampleCount: nat,
                  left: array<nat>, right: array<nat>,
                  ghost t0: seq<Command>, ghost steps0: nat, ghost left0: seq<nat>, ghost right0: seq<nat>)
      requires currentFrame == h.cursor <= sampleCount <= left.Length && sampleCount <= right.Length
      requires Follows(h, t0, steps0) && Filled(h.cursor, steps0, left, right, left0, right0)
      modifies this`trace, this`steps, left, right
      ensures Follows(Flush(h, sampleCount - h.cursor, sampleCount), t0, steps0)
      ensures Filled(sampleCount, steps0, left, right, left0, right0)
    {
      RenderFrames(currentFrame, sampleCount, left, right);
      assert trace == t0 + (h.trace + Samples(sampleCount - currentFrame));
    }

    /** The part of `ayumi_lv2_run` at an event: a MIDI event is decoded, any
        other is skipped. */
    method DecodeEvent(ghost q: Progress, ev: Event, ghost t0: seq<Command>, ghost steps0: nat)
      requires Follows(q, t0, steps0)
      modifies this`envelope, this`pitchbend, this`trace, mixer, noteOnState
      ensures Follows(Dispatch(q, ev), t0, steps0)
    {
      if ev.isMidi {
        ghost var d := Decode(q.state, ev.msg);
        ProcessMidiEvent(ev.msg);
        assert Dispatch(q, ev) == Progress(d.state, q.cursor, q.trace + d.commands);
        assert trace == t0 + (q.trace + d.commands);
      } else {
        assert Dispatch(q, ev) == q;
      }
    }

    /** One pass of the event loop of `ayumi_lv2_run`: render up to the event,
        then decode it if it is a MIDI event. */
    method HandleEvent(ghost p: Progress, currentFrame: nat, ev: Event, sampleCount: nat,
                       left: array<nat>, right: array<nat>,
                       ghost t0: seq<Command>, ghost steps0: nat, ghost left0: seq<nat>, ghost right0: seq<nat>)
      returns (next: nat)
      requires currentFrame == p.cursor <= sampleCount <= left.Length && sampleCount <= right.Length
      requires Follows(p, t0, steps0) && Filled(p.cursor, steps0, left, right, left0, right0)
      modifies this`envelope, this`pitchbend, this`trace, this`steps, mixer, noteOnState, left, right
      ensures next == Dispatch(Flush(p, ev.frames, sampleCount), ev).cursor
      ensures Follows(Dispatch(Flush(p, ev.frames, sampleCount), ev), t0, steps0)
      ensures Filled(next, steps0, left, right, left0, right0)
    {
      next := Advance(p, currentFrame, ev.frames, sampleCount, left, right, t0, steps0, left0, right0);
      DecodeEvent(Flush(p, ev.frames, sampleCount), ev, t0, steps0);
    }

    /** `ayumi_lv2_run`: an inactive instance does nothing; an active one renders
        the block of `sampleCount` frames, decoding each MIDI event once the
        cursor has moved past the event's frame time. Output frame i holds the
        (i + 1)-th sample the engine renders in this block. */
    method Run(events: seq<Event>, sampleCount: nat, left: array<nat>, right: array<nat>)
      requires Valid()
      requires sampleCount <= left.Length && sampleCount <= right.Length
      modifies this`envelope, this`pitchbend, this`trace, this`steps, mixer, noteOnState, left, right
      ensures Valid()
      ensures !active ==>
        && State() == old(State()) && trace == old(trace) && steps == old(steps)
        && left[..] == old(left[..]) && right[..] == old(right[..])
      ensures active ==>
        && State() == Render(old(State()), events, sampleCount).state
        && trace == old(trace) + Render(old(State()), events, sampleCount).trace
        && steps == old(steps) + sampleCount
        && (forall i :: 0 <= i < sampleCount ==> left[i] == old(steps) + i + 1 && right[i] == old(steps) + i + 1)
        && (forall i :: sampleCount <= i < left.Length ==> left[i] == old(left[i]))
        && (forall i :: sampleCount <= i < right.Length ==> right[i] == old(right[i]))
    {
      if !active {
        return;
      }
      ValidState();
      ghost var s0, t0, steps0, left0, right0 := State(), trace, steps, left[..], right[..];
      var currentFrame: nat := 0;
      var k := 0;
      while k < |events|
        invariant k <= |events|
        invariant currentFrame == Handled(s0, events, k, sampleCount).cursor
        invariant Follows(Handled(s0, events, k, sampleCount), t0, steps0)
        invariant Filled(currentFrame, steps0, left, right, left0, right0)
      {
        currentFrame := HandleEvent(Handled(s0, events, k, sampleCount), currentFrame, events[k], sampleCount,
                                    left, right, t0, steps0, left0, right0);
        HandledNext(s0, events, k, sampleCount);
        k := k + 1;
      }
      Finish(Handled(s0, events, |events|, sampleCount), currentFrame, sampleCount, left, right, t0, steps0, left0, right0);
      RenderIsFlush(s0, events, sampleCount);
    }
  }
}
