/** The module-level state of the sonification layer as one object: the
    tempo factor, the gain ceiling and the note queue, with the play
    functions, the two producers and one step of the melodizer. The
    wavetable engine is represented by a ghost log of the calls made to it. */
module Sonification {
  import opened Playback

  class Sonifier {
    /** Factor applied to every duration when a note is played. */
    var tempo: real
    /** Ceiling on the gain handed to the engine. */
    var maxVolume: real
    /** Pending entries; the most recently pushed is the last. */
    var queue: seq<Event>
    /** Every call made to the engine so far, oldest first. */
    ghost var log: seq<EngineCall>

    constructor ()
      ensures tempo == DefaultTempo && maxVolume == DefaultMaxVolume
      ensures queue == [] && log == []
    {
      tempo := DefaultTempo;
      maxVolume := DefaultMaxVolume;
      queue := [];
      log := [];
    }

    /** Sets the tempo from a percentage. */
    method SetTempo(t: real)
      modifies this`tempo
      ensures tempo == t / 100.0
      ensures maxVolume == old(maxVolume) && queue == old(queue) && log == old(log)
    {
      tempo := t / 100.0;
    }

    /** Plays pitch `p` on channel `i`, `t` seconds from now, for `d`
        seconds scaled by the current tempo. A volume that is not positive
        plays nothing and yields None. */
    method PlayNote(i: Channel, t: real, p: Pitch, d: real, volume: real) returns (voice: Option<EngineCall>)
      modifies this`log
      ensures volume <= 0.0 ==> voice == None
      ensures volume > 0.0 ==> voice.Some? && voice.value == WaveTable(i, t, p, Scaled(tempo, d), Clamp(volume, maxVolume))
      ensures log == old(log) + (if voice.Some? then [voice.value] else [])
    {
      if volume > 0.0 {
        var call := WaveTable(i, t, p, Scaled(tempo, d), Clamp(volume, maxVolume));
        log := log + [call];
        voice := Some(call);
      } else {
        voice := None;
      }
    }

    /** Plays all of `pitches` together in one engine call, under the same
        gate, clamp and tempo scaling as PlayNote. */
    method PlayChord(i: Channel, t: real, pitches: seq<Pitch>, d: real, volume: real) returns (voice: Option<EngineCall>)
      modifies this`log
      ensures volume <= 0.0 ==> voice == None
      ensures volume > 0.0 ==> voice.Some? && voice.value == Chord(i, t, pitches, Scaled(tempo, d), Clamp(volume, maxVolume))
      ensures log == old(log) + (if voice.Some? then [voice.value] else [])
    {
      if volume > 0.0 {
        var call := Chord(i, t, pitches, Scaled(tempo, d), Clamp(volume, maxVolume));
        log := log + [call];
        voice := Some(call);
      } else {
        voice := None;
      }
    }

    /** Strikes drum `i` `t` seconds from now. The kit supplies the pitch;
        the duration is always one second, so `d` is not used. */
    method PlayDrum(i: Channel, t: real, d: real, volume: real) returns (voice: Option<EngineCall>)
      modifies this`log
      ensures volume <= 0.0 ==> voice == None
      ensures volume > 0.0 ==> voice.Some? && voice.value == Drum(i, t, DrumDuration, Clamp(volume, maxVolume))
      ensures log == old(log) + (if voice.Some? then [voice.value] else [])
    {
      if volume > 0.0 {
        var call := Drum(i, t, DrumDuration, Clamp(volume, maxVolume));
        log := log + [call];
        voice := Some(call);
      } else {
        voice := None;
      }
    }

    /** Queues a chord of `d` seconds; nothing is played. */
    method AddChordToQueue(i: Channel, pitches: seq<Pitch>, d: real, v: real)
      modifies this`queue
      ensures queue == old(queue) + [Event(i, pitches, d * 1000.0, v)]
      ensures tempo == old(tempo) && log == old(log)
    {
      queue := queue + [Event(i, pitches, d * 1000.0, v)];
    }

    /** Queues a single note of `d` seconds; nothing is played. */
    method AddNoteToQueue(i: Channel, p: Pitch, d: real, v: real)
      modifies this`queue
      ensures queue == old(queue) + [Event(i, [p], d * 1000.0, v)]
      ensures tempo == old(tempo) && log == old(log)
    {
      queue := queue + [Event(i, [p], d * 1000.0, v)];
    }

    /** One melodizer invocation: pops the most recently pushed entry,
        plays each of its pitches now, and returns the delay in
        milliseconds before the next invocation. */
    method Step() returns (delay: real)
      modifies this`queue, this`log
      ensures old(queue) == [] ==> queue == [] && log == old(log) && delay == IdleDelay
      ensures old(queue) != [] ==>
        var e := old(queue)[|old(queue)| - 1];
        queue == old(queue)[..|old(queue)| - 1]
        && log == old(log) + DispatchCalls(e, tempo, maxVolume)
        && delay == NextDelay(Some(e), tempo)
      ensures tempo == old(tempo) && maxVolume == old(maxVolume)
    {
      if |queue| > 0 {
        var note := queue[|queue| - 1];
        queue := queue[..|queue| - 1];
        var k := 0;
        while k < |note.pitches|
          invariant 0 <= k <= |note.pitches|
          invariant queue == old(queue)[..|old(queue)| - 1]
          invariant log == old(log) + PitchCalls(note.instrument, note.pitches[..k], note.duration / 1000.0, note.volume, tempo, maxVolume)
        {
          var voice := PlayNote(note.instrument, 0.0, note.pitches[k], note.duration / 1000.0, note.volume);
          assert note.pitches[..k + 1] == note.pitches[..k] + [note.pitches[k]];
          PitchCallsSnoc(note.instrument, note.pitches[..k], note.pitches[k], note.duration / 1000.0, note.volume, tempo, maxVolume);
          k := k + 1;
        }
        assert note.pitches[..k] == note.pitches;
        delay := if |note.pitches| > 1 then ChordDelay else Scaled(tempo, note.duration);
      } else {
        delay := IdleDelay;
      }
    }
  }

  /** `n` successive melodizer invocations with no producer in between:
      they remove the last `n` entries and play them in drain order. */
  method Drain(s: Sonifier, n: nat)
    requires n <= |s.queue|
    modifies s`queue, s`log
    decreases n
    ensures s.queue == old(s.queue)[..|old(s.queue)| - n]
    ensures |DispatchOrder(old(s.queue))| == |old(s.queue)|
    ensures s.log == old(s.log) + AllCalls(DispatchOrder(old(s.queue))[..n], s.tempo, s.maxVolume)
    ensures s.tempo == old(s.tempo) && s.maxVolume == old(s.maxVolume)
  {
    DispatchOrderLength(s.queue);
    if n > 0 {
      ghost var q := s.queue;
      DrainPrefix(q, n - 1);
      var _ := s.Step();
      Drain(s, n - 1);
      assert q[..|q| - 1][..|q| - 1 - (n - 1)] == q[..|q| - n];
    }
  }

  /** setTempo(40), then a one-second note at volume 0.8, then one step:
      the engine plays the note for 0.4 s at the ceiling 0.75 and the
      next step comes 400 ms later. */
  method TempoScenario() returns (delay: real, ghost calls: seq<EngineCall>)
    ensures calls == [WaveTable(0, 0.0, 60, 0.4, 0.75)]
    ensures delay == 400.0
  {
    var s := new Sonifier();
    s.SetTempo(40.0);
    s.AddNoteToQueue(0, 60, 1.0, 0.8);
    QueuedNoteRoundTrip(0, 60, 1.0, 0.8, s.tempo, s.maxVolume);
    delay := s.Step();
    calls := s.log;
  }

  /** A three-note chord of half a second: three calls at offset 0 and a
      25 ms delay, whatever the duration. */
  method ChordScenario() returns (delay: real, ghost calls: seq<EngineCall>)
    ensures calls == [WaveTable(0, 0.0, 60, 0.2, 0.75), WaveTable(0, 0.0, 64, 0.2, 0.75), WaveTable(0, 0.0, 67, 0.2, 0.75)]
    ensures delay == 25.0
  {
    var s := new Sonifier();
    s.AddChordToQueue(0, [60, 64, 67], 0.5, 0.9);
    QueuedChordRoundTrip(0, [60, 64, 67], 0.5, 0.9, s.tempo, s.maxVolume);
    assert Scaled(s.tempo, 0.5) == 0.2 && Clamp(0.9, s.maxVolume) == 0.75;
    ghost var chord := DispatchCalls(Event(0, [60, 64, 67], 0.5 * 1000.0, 0.9), s.tempo, s.maxVolume);
    assert s.queue == [Event(0, [60, 64, 67], 0.5 * 1000.0, 0.9)];
    delay := s.Step();
    calls := s.log;
    assert chord[0] == WaveTable(0, 0.0, [60, 64, 67][0], Scaled(0.4, 0.5), Clamp(0.9, 0.75));
  }

  /** A note queued at the default tempo but dispatched after setTempo(100)
      is played, and paced, with the later tempo. */
  method LateTempoScenario() returns (delay: real, ghost calls: seq<EngineCall>)
    ensures calls == [WaveTable(3, 0.0, 72, 2.0, 0.5)]
    ensures delay == 2000.0
  {
    var s := new Sonifier();
    s.AddNoteToQueue(3, 72, 2.0, 0.5);
    s.SetTempo(100.0);
    QueuedNoteRoundTrip(3, 72, 2.0, 0.5, s.tempo, s.maxVolume);
    delay := s.Step();
    calls := s.log;
  }

  /** Pushing A, B, C and stepping three times plays C, then B, then A;
      a fourth step finds the queue empty and idles. */
  method LifoScenario(a: Event, b: Event, c: Event) returns (delays: seq<real>, ghost calls: seq<EngineCall>)
    ensures delays == [NextDelay(Some(c), 0.4), NextDelay(Some(b), 0.4), NextDelay(Some(a), 0.4), IdleDelay]
    ensures calls == DispatchCalls(c, 0.4, 0.75) + DispatchCalls(b, 0.4, 0.75) + DispatchCalls(a, 0.4, 0.75)
  {
    var s := new Sonifier();
    s.AddChordToQueue(a.instrument, a.pitches, a.duration / 1000.0, a.volume);
    s.AddChordToQueue(b.instrument, b.pitches, b.duration / 1000.0, b.volume);
    s.AddChordToQueue(c.instrument, c.pitches, c.duration / 1000.0, c.volume);
    assert s.queue == [a, b, c];
    var d1 := s.Step();
    var d2 := s.Step();
    var d3 := s.Step();
    var d4 := s.Step();
    delays := [d1, d2, d3, d4];
    calls := s.log;
  }

  /** A queued rest plays nothing yet still holds the loop for its
      tempo-scaled duration. */
  method RestScenario() returns (delay: real, ghost calls: seq<EngineCall>)
    ensures calls == [] && delay == 200.0
  {
    var s := new Sonifier();
    s.AddNoteToQueue(0, 60, 0.5, 0.0);
    QueuedNoteRoundTrip(0, 60, 0.5, 0.0, s.tempo, s.maxVolume);
    delay := s.Step();
    calls := s.log;
  }
}
