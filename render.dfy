/** The block render loop of the plugin (`ayumi_lv2_run`) as functions: how far
    the frame cursor gets before each event, which engine calls the block makes,
    and in which order. The `Handle` class in module Plugin runs it in place. */
module RenderLoop {
  import opened Midi
  import opened Engine
  import opened Decoder

  /** One event of the input sequence: its frame time, whether its body is a
      MIDI event, and the body's bytes. */
  datatype Event = Event(frames: nat, isMidi: bool, msg: seq<Byte>)

  /** Where the loop stands within a block: the decoder state, the frame cursor
      and the engine calls made so far in this block. */
  datatype Progress = Progress(state: Synth, cursor: nat, trace: seq<Command>)

  function Min(a: int, b: int): int
  {
    if a < b then a else b
  }

  function Max(a: int, b: int): int
  {
    if a < b then b else a
  }

  /** The sum of the frame times of `events`. */
  function FrameSum(events: seq<Event>): nat
  {
    if events == [] then 0 else FrameSum(events[..|events| - 1]) + events[|events| - 1].frames
  }

  /** Before an event: a non-zero frame time is added to the cursor, the sum is
      clamped to the block length `n`, and the samples up to it are rendered. */
  function Flush(p: Progress, frames: nat, n: nat): (r: Progress)
    requires p.cursor <= n
    ensures p.cursor <= r.cursor <= n && r.state == p.state
    ensures Steps(r.trace) == Steps(p.trace) + (r.cursor - p.cursor)
  {
    var next := if frames != 0 then Min(p.cursor + frames, n) else p.cursor;
    StepsOfSamples(next - p.cursor);
    StepsAppend(p.trace, Samples(next - p.cursor));
    Progress(p.state, next, p.trace + Samples(next - p.cursor))
  }

  /** The event itself: a MIDI event is decoded, any other is skipped. */
  function Dispatch(p: Progress, e: Event): (r: Progress)
    requires p.state.Valid()
    ensures r.state.Valid() && r.cursor == p.cursor && Steps(r.trace) == Steps(p.trace)
  {
    if e.isMidi then
      var d := Decode(p.state, e.msg);
      StepsWithout(d.commands);
      StepsAppend(p.trace, d.commands);
      Progress(d.state, p.cursor, p.trace + d.commands)
    else p
  }

  /** The loop after the first `k` events of a block of `n` frames that starts
      from decoder state `s`. */
  function Handled(s: Synth, events: seq<Event>, k: nat, n: nat): (r: Progress)
    requires s.Valid() && k <= |events|
    ensures r.state.Valid() && r.cursor <= n
  {
    if k == 0 then Progress(s, 0, [])
    else Dispatch(Flush(Handled(s, events, k - 1, n), events[k - 1].frames, n), events[k - 1])
  }

  /** The loop just before it decodes event `k`: the samples up to that event are rendered. */
  function BeforeEvent(s: Synth, events: seq<Event>, k: nat, n: nat): Progress
    requires s.Valid() && k < |events|
  {
    Flush(Handled(s, events, k, n), events[k].frames, n)
  }

  /** The whole block: every event, then the samples from the cursor to the end. */
  function Render(s: Synth, events: seq<Event>, n: nat): (r: Progress)
    requires s.Valid()
    ensures r.cursor == n && r.state.Valid()
  {
    var p := Handled(s, events, |events|, n);
    StepsOfSamples(n - p.cursor);
    Progress(p.state, n, p.trace + Samples(n - p.cursor))
  }

  /** The samples after the last event are one more flush, to the end of the block. */
  lemma RenderIsFlush(s: Synth, events: seq<Event>, n: nat)
    requires s.Valid()
    ensures var h := Handled(s, events, |events|, n);
      Render(s, events, n) == Flush(h, n - h.cursor, n)
  {
  }

  /** After `k` events the cursor stands at the sum of their frame times,
      clamped to the block length. */
  lemma {:induction false} HandledCursor(s: Synth, events: seq<Event>, k: nat, n: nat)
    requires s.Valid() && k <= |events|
    ensures Handled(s, events, k, n).cursor == Min(n, FrameSum(events[..k]))
  {
    if k > 0 {
      HandledCursor(s, events, k - 1, n);
      assert events[..k][..k - 1] == events[..k - 1];
    }
  }

  /** The cursor never moves backwards. */
  lemma {:induction false} CursorMonotone(s: Synth, events: seq<Event>, k: nat, j: nat, n: nat)
    requires s.Valid() && k <= j <= |events|
    ensures Handled(s, events, k, n).cursor <= Handled(s, events, j, n).cursor
  {
    if k < j {
      CursorMonotone(s, events, k, j - 1, n);
      CursorStep(s, events, j, n);
    }
  }

  lemma CursorStep(s: Synth, events: seq<Event>, j: nat, n: nat)
    requires s.Valid() && 0 < j <= |events|
    ensures Handled(s, events, j - 1, n).cursor <= Handled(s, events, j, n).cursor
  {
  }

  /** The engine has rendered exactly as many samples as the cursor says. */
  lemma {:induction false} HandledSteps(s: Synth, events: seq<Event>, k: nat, n: nat)
    requires s.Valid() && k <= |events|
    ensures Steps(Handled(s, events, k, n).trace) == Handled(s, events, k, n).cursor
  {
    if k > 0 {
      HandledSteps(s, events, k - 1, n);
      var f := Flush(Handled(s, events, k - 1, n), events[k - 1].frames, n);
      assert Handled(s, events, k, n) == Dispatch(f, events[k - 1]);
    }
  }

  /** Event `k` is decoded after exactly min(n, frames_0 + ... + frames_k)
      samples of the block, and its calls follow them directly. */
  lemma DecodeTiming(s: Synth, events: seq<Event>, k: nat, n: nat)
    requires s.Valid() && k < |events|
    ensures Steps(BeforeEvent(s, events, k, n).trace) == Min(n, FrameSum(events[..k + 1]))
    ensures Handled(s, events, k + 1, n).trace ==
      BeforeEvent(s, events, k, n).trace +
      (if events[k].isMidi then Decode(BeforeEvent(s, events, k, n).state, events[k].msg).commands else [])
  {
    var b := BeforeEvent(s, events, k, n);
    HandledSteps(s, events, k, n);
    assert Steps(b.trace) == b.cursor;
    HandledNext(s, events, k, n);
    DispatchTrace(b, events[k]);
    HandledCursor(s, events, k + 1, n);
  }

  lemma HandledNext(s: Synth, events: seq<Event>, k: nat, n: nat)
    requires s.Valid() && k < |events|
    ensures Handled(s, events, k + 1, n) == Dispatch(BeforeEvent(s, events, k, n), events[k])
  {
  }

  lemma DispatchTrace(p: Progress, e: Event)
    requires p.state.Valid()
    ensures Dispatch(p, e).cursor == p.cursor
    ensures Dispatch(p, e).trace == p.trace + (if e.isMidi then Decode(p.state, e.msg).commands else [])
  {
  }

  /** An event with frame time 0 renders nothing before it; an event that is
      not MIDI renders the samples before it but is not decoded. */
  lemma SilentEvents(s: Synth, events: seq<Event>, k: nat, n: nat)
    requires s.Valid() && k < |events|
    ensures events[k].frames == 0 ==> BeforeEvent(s, events, k, n) == Handled(s, events, k, n)
    ensures !events[k].isMidi ==>
      Handled(s, events, k + 1, n) == BeforeEvent(s, events, k, n) &&
      Handled(s, events, k + 1, n).state == Handled(s, events, k, n).state
  {
  }

  /** A block renders exactly `n` samples, whatever its events. */
  lemma RenderSteps(s: Synth, events: seq<Event>, n: nat)
    requires s.Valid()
    ensures Steps(Render(s, events, n).trace) == n
  {
    HandledSteps(s, events, |events|, n);
    RenderIsFlush(s, events, n);
  }

  // The frame time of an event in an LV2 Atom sequence is its offset from the
  // start of the block; the loop above adds it to the cursor as a delta. What
  // follows is the loop with frame times read as offsets, and the difference.

  /** Frame times that do not decrease along the sequence. */
  predicate Ordered(events: seq<Event>)
  {
    forall i, j :: 0 <= i < j < |events| ==> events[i].frames <= events[j].frames
  }

  /** Before an event, reading its frame time as an offset from the block start:
      render up to the offset, clamped to the block length. */
  function FlushTo(p: Progress, offset: nat, n: nat): (r: Progress)
    requires p.cursor <= n
    ensures p.cursor <= r.cursor <= n && r.state == p.state
    ensures Steps(r.trace) == Steps(p.trace) + (r.cursor - p.cursor)
  {
    var next := Max(p.cursor, Min(offset, n));
    StepsOfSamples(next - p.cursor);
    StepsAppend(p.trace, Samples(next - p.cursor));
    Progress(p.state, next, p.trace + Samples(next - p.cursor))
  }

  function HandledAtOffsets(s: Synth, events: seq<Event>, k: nat, n: nat): (r: Progress)
    requires s.Valid() && k <= |events|
    ensures r.state.Valid() && r.cursor <= n
  {
    if k == 0 then Progress(s, 0, [])
    else Dispatch(FlushTo(HandledAtOffsets(s, events, k - 1, n), events[k - 1].frames, n), events[k - 1])
  }

  function BeforeEventAtOffset(s: Synth, events: seq<Event>, k: nat, n: nat): Progress
    requires s.Valid() && k < |events|
  {
    FlushTo(HandledAtOffsets(s, events, k, n), events[k].frames, n)
  }

  /** With frame times read as offsets, the cursor after `k` ordered events
      stands at the last one's offset, and the engine has rendered that many samples. */
  lemma {:induction false} OffsetCursor(s: Synth, events: seq<Event>, k: nat, n: nat)
    requires s.Valid() && k <= |events| && Ordered(events)
    ensures HandledAtOffsets(s, events, k, n).cursor == if k == 0 then 0 else Min(n, events[k - 1].frames)
    ensures Steps(HandledAtOffsets(s, events, k, n).trace) == HandledAtOffsets(s, events, k, n).cursor
  {
    if k > 0 {
      OffsetCursor(s, events, k - 1, n);
    }
  }

  /** With frame times read as offsets, every ordered event is decoded after
      exactly min(n, its offset) samples. */
  lemma OffsetTiming(s: Synth, events: seq<Event>, k: nat, n: nat)
    requires s.Valid() && k < |events| && Ordered(events)
    ensures Steps(BeforeEventAtOffset(s, events, k, n).trace) == Min(n, events[k].frames)
  {
    OffsetCursor(s, events, k, n);
  }

  /** The sum of frame times of the first `m` events covers the first and the last of them. */
  lemma {:induction false} FrameSumCovers(events: seq<Event>, m: nat)
    requires 2 <= m <= |events|
    ensures FrameSum(events[..m]) >= events[0].frames + events[m - 1].frames
  {
    assert events[..m][..m - 1] == events[..m - 1];
    if m == 2 {
      assert events[..1][..0] == [];
    } else {
      FrameSumCovers(events, m - 1);
    }
  }

  /** Once the first event of a block has a non-zero frame time, every later
      event whose offset lies inside the block is decoded after more samples
      than its offset. */
  lemma DeltaTimingIsLate(s: Synth, events: seq<Event>, k: nat, n: nat)
    requires s.Valid() && Ordered(events) && 0 < k < |events|
    requires events[0].frames > 0 && events[k].frames < n
    ensures Steps(BeforeEvent(s, events, k, n).trace) > Steps(BeforeEventAtOffset(s, events, k, n).trace)
  {
    DecodeTiming(s, events, k, n);
    OffsetTiming(s, events, k, n);
    FrameSumCovers(events, k + 1);
  }

  /** A note-on at offset 40 and a note-off at offset 90 in a block of 100
      frames: the loop decodes the note-off after all 100 samples, where the
      offsets place it after 90. */
  lemma DeltaTimingExample(s: Synth, on: seq<Byte>, off: seq<Byte>)
    requires s.Valid() && on == [0x90, 45, 100] && off == [0x80, 45, 0]
    ensures var events := [Event(40, true, on), Event(90, true, off)];
      && Steps(BeforeEvent(s, events, 1, 100).trace) == 100
      && Steps(BeforeEventAtOffset(s, events, 1, 100).trace) == 90
  {
    var events := [Event(40, true, on), Event(90, true, off)];
    assert Steps(BeforeEvent(s, events, 1, 100).trace) == 100 by {
      DecodeTiming(s, events, 1, 100);
      FrameSumCovers(events, 2);
    }
    assert Steps(BeforeEventAtOffset(s, events, 1, 100).trace) == 90 by {
      assert Ordered(events);
      OffsetTiming(s, events, 1, 100);
    }
  }
}
