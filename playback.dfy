/** The pure part of the sonification layer: the records that sit in the
    note queue, the calls made into the wavetable engine, the gain gate and
    clamp shared by every play function, the delay the melodizer chooses,
    and the order in which it drains its queue. */
module Playback {

  /** An instrument or drum-kit slot, used only as an opaque identifier. */
  type Channel = int

  /** A MIDI pitch number. */
  type Pitch = int

  datatype Option<T> = None | Some(value: T)

  /** A queued entry: the channel, its pitches, its duration in
      milliseconds and the volume the producer asked for. */
  datatype Event = Event(instrument: Channel, pitches: seq<Pitch>, duration: real, volume: real)

  /** One call into the wavetable engine. Offsets are relative to the
      engine clock's current time; durations are in seconds. */
  datatype EngineCall =
    | WaveTable(channel: Channel, offset: real, pitch: Pitch, duration: real, gain: real)
    | Chord(channel: Channel, offset: real, chord: seq<Pitch>, duration: real, gain: real)
    | Drum(channel: Channel, offset: real, duration: real, gain: real)

  /** Initial tempo factor and the fixed gain ceiling. */
  const DefaultTempo: real := 0.4
  const DefaultMaxVolume: real := 0.75

  /** Delays, in milliseconds, after a chord and after an empty poll. */
  const ChordDelay: real := 25.0
  const IdleDelay: real := 50.0

  /** Every drum hit is given a one-second duration, whatever the caller asks. */
  const DrumDuration: real := 1.0

  /** The gain handed to the engine: the smaller of the requested volume
      and the ceiling. */
  function Clamp(volume: real, maxVolume: real): (g: real)
    ensures g <= maxVolume && g <= volume
    ensures g == volume || g == maxVolume
  {
    if volume > maxVolume then maxVolume else volume
  }

  /** A duration stretched by the tempo factor. */
  function Scaled(tempo: real, d: real): real
  {
    tempo * d
  }

  /** The engine calls the melodizer's loop makes for the pitches `ps`
      of one entry: a note at offset 0 for each pitch, with the tempo in
      force at that moment and `d` in seconds; nothing for a rest. */
  function PitchCalls(ch: Channel, ps: seq<Pitch>, d: real, volume: real, tempo: real, maxVolume: real): seq<EngineCall>
    decreases |ps|
  {
    if ps == [] then []
    else
      PitchCalls(ch, ps[..|ps| - 1], d, volume, tempo, maxVolume)
      + (if volume > 0.0 then [WaveTable(ch, 0.0, ps[|ps| - 1], Scaled(tempo, d), Clamp(volume, maxVolume))] else [])
  }

  /** One more pitch adds at most one call, at the end. */
  lemma PitchCallsSnoc(ch: Channel, ps: seq<Pitch>, p: Pitch, d: real, volume: real, tempo: real, maxVolume: real)
    ensures PitchCalls(ch, ps + [p], d, volume, tempo, maxVolume)
         == PitchCalls(ch, ps, d, volume, tempo, maxVolume)
            + (if volume > 0.0 then [WaveTable(ch, 0.0, p, Scaled(tempo, d), Clamp(volume, maxVolume))] else [])
  {
    assert (ps + [p])[..|ps|] == ps;
  }

  /** The engine calls made when entry `e` is dispatched. */
  function DispatchCalls(e: Event, tempo: real, maxVolume: real): seq<EngineCall>
  {
    PitchCalls(e.instrument, e.pitches, e.duration / 1000.0, e.volume, tempo, maxVolume)
  }

  /** The delay before the next melodizer step, given the entry just
      popped (None when the queue was empty). */
  function NextDelay(popped: Option<Event>, tempo: real): real
  {
    match popped
    case None => IdleDelay
    case Some(e) => if |e.pitches| > 1 then ChordDelay else Scaled(tempo, e.duration)
  }

  /** The entries of `q` in the order that successive melodizer steps
      dispatch them when nothing is pushed meanwhile. */
  function DispatchOrder(q: seq<Event>): seq<Event>
    decreases |q|
  {
    if q == [] then [] else [q[|q| - 1]] + DispatchOrder(q[..|q| - 1])
  }

  /** The engine calls made when the entries `es` are dispatched one
      after another, in that order. */
  function AllCalls(es: seq<Event>, tempo: real, maxVolume: real): seq<EngineCall>
    decreases |es|
  {
    if es == [] then [] else DispatchCalls(es[0], tempo, maxVolume) + AllCalls(es[1..], tempo, maxVolume)
  }

  /** One call per pitch, in pitch order, each on the entry's channel at
      offset 0 with the clamped gain; no call at all when the volume is
      not positive. */
  lemma {:induction false} PitchCallsSpec(ch: Channel, ps: seq<Pitch>, d: real, volume: real, tempo: real, maxVolume: real)
    ensures volume <= 0.0 ==> PitchCalls(ch, ps, d, volume, tempo, maxVolume) == []
    ensures volume > 0.0 ==> |PitchCalls(ch, ps, d, volume, tempo, maxVolume)| == |ps|
    ensures volume > 0.0 ==> forall k :: 0 <= k < |ps| ==>
      PitchCalls(ch, ps, d, volume, tempo, maxVolume)[k] == WaveTable(ch, 0.0, ps[k], Scaled(tempo, d), Clamp(volume, maxVolume))
  {
    if ps != [] {
      var init := ps[..|ps| - 1];
      PitchCallsSpec(ch, init, d, volume, tempo, maxVolume);
      if volume > 0.0 {
        forall k | 0 <= k < |ps|
          ensures PitchCalls(ch, ps, d, volume, tempo, maxVolume)[k] == WaveTable(ch, 0.0, ps[k], Scaled(tempo, d), Clamp(volume, maxVolume))
        {
          if k < |init| {
            assert init[k] == ps[k];
          }
        }
      }
    }
  }

  /** No dispatched note is ever louder than the ceiling. */
  lemma GainNeverExceedsMax(e: Event, tempo: real, maxVolume: real)
    ensures forall c :: c in DispatchCalls(e, tempo, maxVolume) ==> c.WaveTable? && c.gain <= maxVolume && c.gain <= e.volume
  {
    var calls := DispatchCalls(e, tempo, maxVolume);
    PitchCallsSpec(e.instrument, e.pitches, e.duration / 1000.0, e.volume, tempo, maxVolume);
    forall c | c in calls ensures c.WaveTable? && c.gain <= maxVolume && c.gain <= e.volume {
      var k :| 0 <= k < |calls| && calls[k] == c;
    }
  }

  /** The drain order is last-in first-out: its k-th entry is the k-th
      from the end of the queue. */
  lemma {:induction false} DispatchOrderIsReverse(q: seq<Event>)
    ensures |DispatchOrder(q)| == |q|
    ensures forall k :: 0 <= k < |q| ==> DispatchOrder(q)[k] == q[|q| - 1 - k]
  {
    if q != [] {
      var init := q[..|q| - 1];
      DispatchOrderIsReverse(init);
      forall k | 0 <= k < |q| ensures DispatchOrder(q)[k] == q[|q| - 1 - k] {
        if k > 0 {
          assert DispatchOrder(q)[k] == DispatchOrder(init)[k - 1];
        }
      }
    }
  }

  /** Draining visits every entry exactly once. */
  lemma DispatchOrderLength(q: seq<Event>)
    ensures |DispatchOrder(q)| == |q|
  {
    DispatchOrderIsReverse(q);
  }

  /** The first `n + 1` entries of the drain order are the last entry of
      the queue followed by the first `n` of the drain order of the rest. */
  lemma DrainPrefix(q: seq<Event>, n: nat)
    requires 0 < n + 1 <= |q|
    ensures |DispatchOrder(q)| == |q|
    ensures DispatchOrder(q)[..n + 1] == [q[|q| - 1]] + DispatchOrder(q[..|q| - 1])[..n]
  {
    DispatchOrderLength(q);
  }

  /** The drain order of the queue holding A, B and C is C, B, A. */
  lemma LifoThree(a: Event, b: Event, c: Event)
    ensures DispatchOrder([a, b, c]) == [c, b, a]
  {
    DispatchOrderIsReverse([a, b, c]);
  }

  /** An entry with more than one pitch paces the loop at 25 ms whatever
      its duration, after one call per pitch. */
  lemma ChordBurst(e: Event, tempo: real, maxVolume: real)
    requires |e.pitches| > 1
    ensures NextDelay(Some(e), tempo) == ChordDelay
    ensures forall d :: NextDelay(Some(e.(duration := d)), tempo) == ChordDelay
    ensures e.volume > 0.0 ==> |DispatchCalls(e, tempo, maxVolume)| == |e.pitches|
  {
    PitchCallsSpec(e.instrument, e.pitches, e.duration / 1000.0, e.volume, tempo, maxVolume);
  }

  /** For a single-note entry, the delay in milliseconds handed to the
      timer is a thousand times the duration in seconds handed to the
      engine. */
  lemma SelfPacing(e: Event, tempo: real, maxVolume: real)
    requires |e.pitches| == 1 && e.volume > 0.0
    ensures |DispatchCalls(e, tempo, maxVolume)| == 1
    ensures NextDelay(Some(e), tempo) == 1000.0 * DispatchCalls(e, tempo, maxVolume)[0].duration
  {
    PitchCallsSpec(e.instrument, e.pitches, e.duration / 1000.0, e.volume, tempo, maxVolume);
    calc {
      1000.0 * (tempo * (e.duration / 1000.0));
      tempo * (1000.0 * (e.duration / 1000.0));
      tempo * e.duration;
    }
  }

  /** An entry whose volume is not positive is a rest: it plays nothing
      but paces the loop exactly as the same entry played aloud would. */
  lemma RestKeepsPace(e: Event, v: real, tempo: real, maxVolume: real)
    requires e.volume <= 0.0
    ensures DispatchCalls(e, tempo, maxVolume) == []
    ensures NextDelay(Some(e), tempo) == NextDelay(Some(e.(volume := v)), tempo)
  {
    PitchCallsSpec(e.instrument, e.pitches, e.duration / 1000.0, e.volume, tempo, maxVolume);
  }

  /** An entry with no pitches also plays nothing and falls into the
      single-note branch of the delay. */
  lemma EmptyEntryPaces(e: Event, tempo: real, maxVolume: real)
    requires e.pitches == []
    ensures DispatchCalls(e, tempo, maxVolume) == []
    ensures NextDelay(Some(e), tempo) == Scaled(tempo, e.duration)
  {
  }

  /** A note queued with a duration of `d` seconds reaches the engine with
      `tempo * d` seconds, where `tempo` is the factor in force when it is
      dispatched, and then holds the loop for `1000 * tempo * d` ms. */
  lemma QueuedNoteRoundTrip(i: Channel, p: Pitch, d: real, v: real, tempo: real, maxVolume: real)
    ensures v <= 0.0 ==> DispatchCalls(Event(i, [p], d * 1000.0, v), tempo, maxVolume) == []
    ensures v > 0.0 ==> DispatchCalls(Event(i, [p], d * 1000.0, v), tempo, maxVolume)
                        == [WaveTable(i, 0.0, p, Scaled(tempo, d), Clamp(v, maxVolume))]
    ensures NextDelay(Some(Event(i, [p], d * 1000.0, v)), tempo) == 1000.0 * tempo * d
  {
    var e := Event(i, [p], d * 1000.0, v);
    assert e.duration / 1000.0 == d;
    PitchCallsSpec(i, [p], d, v, tempo, maxVolume);
  }

  /** A chord queued with `d` seconds plays every pitch, in order, for
      `tempo * d` seconds each, with the dispatch-time tempo. */
  lemma QueuedChordRoundTrip(i: Channel, ps: seq<Pitch>, d: real, v: real, tempo: real, maxVolume: real)
    requires v > 0.0
    ensures |DispatchCalls(Event(i, ps, d * 1000.0, v), tempo, maxVolume)| == |ps|
    ensures forall k :: 0 <= k < |ps| ==>
      DispatchCalls(Event(i, ps, d * 1000.0, v), tempo, maxVolume)[k] == WaveTable(i, 0.0, ps[k], Scaled(tempo, d), Clamp(v, maxVolume))
  {
    var e := Event(i, ps, d * 1000.0, v);
    assert e.duration / 1000.0 == d;
    PitchCallsSpec(i, ps, d, v, tempo, maxVolume);
  }
}
