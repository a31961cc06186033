# Sonification note queue and melodizer

This project models the scheduling core of `web/js/sonification.js`, the
browser-side sonification layer of chess_matrix. The layer turns notes,
chords and drum hits into calls on a wavetable playback engine. Its state is
three module-level variables:

- the tempo factor `tempo`, initially 0.4;
- the gain ceiling `max_volume`, fixed at 0.75;
- the note queue `note_queue`.

It offers:

- a tempo setter;
- three immediate play functions (`playNote`, `playChord`, `playDrum`). Each plays nothing and returns `null` when the volume is not positive. Otherwise it clamps the gain to the ceiling and makes one engine call;
- two producers (`addNoteToQueue`, `addChordToQueue`). Each pushes one entry with its duration converted to milliseconds;
- the melodizer, a self-rescheduling timer callback. Each invocation pops the most recently pushed entry and plays each of its pitches now. It then schedules itself again: 25 ms after a chord, `tempo * duration` ms after a single note, or 50 ms when the queue was empty.

The model has two modules:

- `Playback` (playback.dfy) holds the pure part: the queue entry `Event`, the engine call `EngineCall`, the gain clamp, the duration scaling, the calls one dispatch makes, the delay rule and the drain order, with lemmas about them.
- `Sonification` (sonification.dfy) holds the class `Sonifier`. Its fields are `tempo`, `maxVolume` and `queue`. It has one method per modelled function. `Step` stands for one melodizer invocation: it returns the delay instead of calling `setTimeout`. A ghost field `log` records every call made to the engine, oldest first. Each entry holds the channel, the offset from the engine clock's "now", the pitch or pitches, the duration in seconds already scaled by the tempo, and the clamped gain.
- The module-level client methods at the end of sonification.dfy run fixed call sequences on a fresh `Sonifier`. Their contracts state the delays and engine calls that result.

Numbers are Dafny `real`s: an exact-arithmetic stand-in for JavaScript doubles.

Behaviour of the code worth stating:

- No function in the file changes `max_volume`, so `maxVolume` is set only by the constructor.
- `playDrum` ignores its `d` argument. It always passes a one-second duration, not scaled by the tempo.
- Nothing stops an entry with an empty pitch list from being queued. Such an entry plays nothing and takes the `tempo * duration` delay.
- The file has no sustained-voice or retrigger path; only the queue and the immediate play functions exist.

## Model

| member | source | states |
|---|---|---|
| Playback.Clamp | web/js/sonification.js:38 | the gain is the minimum of the requested volume and the ceiling: at most both, and equal to one of them |
| Playback.PitchCallsSpec | web/js/sonification.js:64 | the dispatch loop makes one engine call per pitch, in pitch order, on the entry's channel at offset 0, with duration `tempo * d` and the clamped gain; it makes no call when the volume is not positive |
| Playback.PitchCallsSnoc | web/js/sonification.js:64 | each further loop iteration adds at most one call, at the end of what was already issued |
| Playback.GainNeverExceedsMax | web/js/sonification.js:36-40 | every call a dispatch makes is a single-note call whose gain is at most the ceiling and at most the requested volume |
| Playback.DispatchOrderIsReverse | web/js/sonification.js:62-63 | the drain order is last-in first-out: its k-th entry is the k-th from the end of the queue (`Sonification.Drain` ties this order to repeated `Step` calls) |
| Playback.LifoThree | web/js/sonification.js:59-63 | the drain order of a queue holding A, B, C is C, B, A |
| Playback.DrainPrefix | web/js/sonification.js:62-63 | the first `n + 1` entries of the drain order are the queue's last entry followed by the first `n` of the drain order of the rest, which is what one pop followed by `n` more steps dispatches |
| Playback.ChordBurst | web/js/sonification.js:65 | an entry with more than one pitch yields the 25 ms delay whatever its duration, after one call per pitch |
| Playback.SelfPacing | web/js/sonification.js:64-65 | for a single audible note, the delay handed to `setTimeout` (in ms) equals 1000 times the duration in seconds handed to the engine |
| Playback.RestKeepsPace | web/js/sonification.js:64-65 | an entry with volume ≤ 0 makes no engine call but yields the same delay as the same entry at any other volume |
| Playback.EmptyEntryPaces | web/js/sonification.js:64-65 | an entry with no pitches makes no call and takes the `tempo * duration` branch of the delay |
| Playback.QueuedNoteRoundTrip | web/js/sonification.js:60-65 | a note queued with `d` seconds is played with `tempo * d` seconds using the dispatch-time tempo (or not at all when the volume is not positive), and the next delay is `1000 * tempo * d` ms |
| Playback.QueuedChordRoundTrip | web/js/sonification.js:59-64 | a chord queued with `d` seconds plays each of its pitches, in order, with `tempo * d` seconds and the clamped gain |
| Sonification.Sonifier.constructor | web/js/sonification.js:5-6 | the tempo starts at 0.4, the ceiling at 0.75, the queue empty and no engine call made |
| Sonification.Sonifier.SetTempo | web/js/sonification.js:7 | the tempo becomes `t / 100`; the ceiling, the queue and the engine log do not change |
| Sonification.Sonifier.PlayNote | web/js/sonification.js:32-41 | a volume ≤ 0 returns None and makes no engine call; otherwise exactly one single-note call is logged and returned, with the given offset and pitch, duration `tempo * d` and the clamped gain |
| Sonification.Sonifier.PlayChord | web/js/sonification.js:43-49 | the same gate, clamp and scaling, with one chord call carrying all the pitches |
| Sonification.Sonifier.PlayDrum | web/js/sonification.js:51-57 | the same gate and clamp; the drum call always has a one-second duration |
| Sonification.Sonifier.AddChordToQueue | web/js/sonification.js:59 | exactly one entry with the given pitches, duration `d * 1000` and unchanged volume is appended; earlier entries, the tempo and the engine log do not change |
| Sonification.Sonifier.AddNoteToQueue | web/js/sonification.js:60 | exactly one entry with the single pitch `[p]`, duration `d * 1000` and unchanged volume is appended; earlier entries, the tempo and the engine log do not change |
| Sonification.Sonifier.Step | web/js/sonification.js:61-68 | on an empty queue: no call, queue unchanged, delay 50; otherwise the last entry is removed and the prefix kept, the log grows by exactly that entry's dispatch calls at the current tempo, and the delay follows the 25 ms / `tempo * duration` rule |
| Sonification.Drain | web/js/sonification.js:61-68 | `n` successive melodizer calls with no push in between remove exactly the last `n` entries and log the calls of the first `n` entries of the drain order, in that order, at the current tempo |
| Sonification.TempoScenario | web/js/sonification.js:60-65 | setTempo(40) and a one-second note at volume 0.8 give one call with duration 0.4 and gain 0.75, then a 400 ms delay |
| Sonification.ChordScenario | web/js/sonification.js:59-65 | a half-second chord of 60, 64 and 67 gives three calls at offset 0 with duration 0.2, then a 25 ms delay |
| Sonification.LateTempoScenario | web/js/sonification.js:60-65 | a note queued before setTempo(100) is played and paced with the new tempo |
| Sonification.LifoScenario | web/js/sonification.js:59-67 | pushes A, B, C and four steps play C's calls, then B's, then A's, and the fourth step idles at 50 ms |
| Sonification.RestScenario | web/js/sonification.js:60-65 | a queued note at volume 0 makes no call but still delays the loop by its scaled duration |

## Left out

- `initAudio`, `setInstrument` and `setDrumKit` (web/js/sonification.js:8-30) are not modelled. They create the audio context and load instrument samples asynchronously through library loaders and global variables, and nothing about them can be stated.
- The `orchestra` and `drum_kit` tables are not modelled. A channel is an opaque integer. The model does not capture that `playDrum` on an unloaded kit slot throws. It also does not record the kit's pitch in the drum call.
- The engine (`queueWaveTable`, `queueChord`) is represented only by the ghost call log. Its return value, a voice envelope, is modelled as the description of the call made.
- `audioContext.currentTime` is not modelled. Offsets are recorded relative to the engine clock's "now".
- `setTimeout` and the perpetual loop are not modelled. `Step` returns the delay that would be passed to `setTimeout`. Wall-clock time and the scheduling of later invocations are outside the model.
- `console.log` output is not modelled.
- Sonification.Sonifier.AddChordToQueue: does not model aliasing. The source pushes the caller's `pitches` array by reference, so a caller that changes that array after queuing changes what a later melodizer call plays; the model stores the pitches as a value.
- `setTimeout` treats the delay as a minimum, rounds it to whole milliseconds and clamps nested timers to at least 4 ms; the model states only the delay value passed to it.
- IEEE-754 rounding is not modelled. Because durations are exact reals, `d * 1000 / 1000` is always exactly `d`, which a double does not guarantee.
