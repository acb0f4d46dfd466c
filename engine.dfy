/** The ayumi synthesis engine, seen only through the calls the plugin makes to
    it. Its waveform generation is not modelled: each call is recorded as a
    `Command`, and the sample it produces is identified by its position among
    the `Process` calls. */
module Engine {

  /** One call into the engine. Arguments are kept as the plugin passes them,
      except where the plugin passes a floating-point value:
      - `SetTone` records the MIDI key the tone period is computed from;
      - `SetPan` records the pan position as a numerator over 128
        (the plugin passes `position128 / 128.0`, with the equal-power flag 0). */
  datatype Command =
    | Configure(isYm: int, clockRate: int, sampleRate: int)
    | SetMixer(voice: int, tone: int, noise: int, envelope: int)
    | SetTone(voice: int, key: int)
    | SetNoise(noisePeriod: int)
    | SetEnvelope(envelopePeriod: bv32)
    | SetEnvelopeShape(shape: int)
    | SetPan(voice: int, position128: int)
    | SetVolume(voice: int, volume: int)
    | RemoveDc
    | Process

  /** The engine's own range for each argument: voices 0..2, mixer switches 0 or 1,
      a 5-bit noise period, a 4-bit envelope shape, a volume of at most 14 (the
      plugin's per-voice ceiling) and a pan numerator below 256. */
  predicate InRange(c: Command)
  {
    match c
    case SetMixer(v, t, n, e) => 0 <= v < 3 && t in {0, 1} && n in {0, 1} && e in {0, 1}
    case SetTone(v, key) => 0 <= v < 3 && 0 <= key < 256
    case SetNoise(p) => 0 <= p < 32
    case SetEnvelopeShape(s) => 0 <= s < 16
    case SetPan(v, p) => 0 <= v < 3 && 0 <= p < 256
    case SetVolume(v, vol) => 0 <= v < 3 && 0 <= vol <= 14
    case _ => true
  }

  /** The calls that render `k` samples: for each, advance the engine one sample,
      then apply its DC-offset correction. */
  function Samples(k: nat): (t: seq<Command>)
  {
    if k == 0 then [] else Samples(k - 1) + [Process, RemoveDc]
  }

  /** Frame i of the rendered run is call 2i, which advances the engine, then
      call 2i + 1, which removes the DC offset. */
  lemma {:induction false} SamplesShape(k: nat)
    ensures |Samples(k)| == 2 * k
    ensures forall i :: 0 <= i < k ==> Samples(k)[2 * i] == Process && Samples(k)[2 * i + 1] == RemoveDc
  {
    if k > 0 {
      SamplesShape(k - 1);
      assert Samples(k) == Samples(k - 1) + [Process, RemoveDc];
    }
  }

  /** The number of samples a sequence of calls renders: its `Process` calls. */
  function Steps(t: seq<Command>): nat
  {
    if t == [] then 0
    else Steps(t[..|t| - 1]) + (if t[|t| - 1] == Process then 1 else 0)
  }

  /** The samples two runs of calls render add up. */
  lemma {:induction false} StepsAppend(t: seq<Command>, u: seq<Command>)
    ensures Steps(t + u) == Steps(t) + Steps(u)
  {
    if u == [] {
      assert t + u == t;
    } else {
      StepsAppend(t, u[..|u| - 1]);
      assert (t + u)[..|t + u| - 1] == t + u[..|u| - 1];
    }
  }

  /** One more call renders one more sample exactly when it is `Process`. */
  lemma StepsSnoc(t: seq<Command>, c: Command)
    ensures Steps(t + [c]) == Steps(t) + (if c == Process then 1 else 0)
  {
    assert (t + [c])[..|t + [c]| - 1] == t;
  }

  /** Calls that do not include `Process` render nothing. */
  lemma {:induction false} StepsWithout(t: seq<Command>)
    requires Process !in t
    ensures Steps(t) == 0
  {
    if t != [] {
      assert forall c :: c in t[..|t| - 1] ==> c in t;
      StepsWithout(t[..|t| - 1]);
    }
  }

  lemma {:induction false} StepsOfSamples(k: nat)
    ensures Steps(Samples(k)) == k
    ensures |Samples(k)| == 2 * k
  {
    if k > 0 {
      StepsOfSamples(k - 1);
      StepsAppend(Samples(k - 1), [Process, RemoveDc]);
      assert [Process, RemoveDc][..1] == [Process];
      assert [Process][..0] == [];
    }
  }

  /** The calls `ayumi_lv2_instantiate` makes: configure the engine (chip type 1,
      a 2 MHz clock and the sample rate), select noise period 4, then set up
      each of the three voices. */
  function InstantiateCalls(sampleRate: int): (t: seq<Command>)
    ensures |t| == 2 + 5 * 3 && t[..2] == [Configure(1, 2000000, sampleRate), SetNoise(4)]
    ensures Process !in t && forall c :: c in t ==> InRange(c)
  {
    [Configure(1, 2000000, sampleRate), SetNoise(4)] + VoiceSetups(3)
  }

  /** The set-up of voices 0..k-1, in order. */
  function VoiceSetups(k: nat): (t: seq<Command>)
    ensures |t| == 5 * k && Process !in t
    ensures k <= 3 ==> forall c :: c in t ==> InRange(c)
  {
    if k == 0 then [] else VoiceSetups(k - 1) + VoiceSetup(k - 1)
  }

  /** One voice's set-up: centre pan, mixer switches (1, 1, 0), envelope shape 14,
      envelope period 0x40 and volume 14. */
  function VoiceSetup(v: int): (t: seq<Command>)
    ensures |t| == 5 && Process !in t
    ensures 0 <= v < 3 ==> forall c :: c in t ==> InRange(c)
  {
    [SetPan(v, 64), SetMixer(v, 1, 1, 0), SetEnvelopeShape(14), SetEnvelope(0x40), SetVolume(v, 14)]
  }
}
