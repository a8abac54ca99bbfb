/**
 The voice registry: at most one sounding oscillator per tone.

 The registry maps a tone to the voice sounding it. Each operation is a
 function from the old map to the new map together with the calls it issues
 to the audio backend, in order. The backend itself is not modelled; its
 calls are only recorded, as Commands.
 */
module Registry {
  import opened Tuning

  datatype Waveform = Sine | Square | Triangle | Sawtooth

  /** Gain a voice starts at. */
  const SustainGain: real := 0.2
  /** Near-zero floor of the exponential release ramp. */
  const ReleaseFloor: real := 0.0001
  /** Seconds from release until the ramp ends and the oscillator stops. */
  const ReleaseTime: real := 0.3

  /** One oscillator/gain pair: its waveform, its current frequency and its gain. */
  datatype Voice = Voice(wave: Waveform, freq: real, gain: real)

  type Voices = map<Tone, Voice>

  /** A call issued to the audio backend for the voice keyed by a tone. */
  datatype Command =
    | StartOscillator(tone: Tone, wave: Waveform, freq: real, gain: real)
    | SetFrequency(tone: Tone, freq: real)
    | RampDownAndStop(tone: Tone, floor: real, after: real)

  /** The registry after an operation and the backend operations it issued. */
  datatype Step = Step(voices: Voices, issued: seq<Command>)

  /**
   Press a note. An existing voice for the note is left as it is and nothing
   is issued; otherwise one new voice is started at the given frequency.
   */
  function Play(voices: Voices, note: Tone, wave: Waveform, freq: real): (r: Step)
    ensures note in voices ==> r == Step(voices, [])
    ensures note !in voices ==>
      && r.voices.Keys == voices.Keys + {note}
      && r.voices[note] == Voice(wave, freq, SustainGain)
      && r.issued == [StartOscillator(note, wave, freq, SustainGain)]
    ensures forall t :: t in voices ==> t in r.voices && r.voices[t] == voices[t]
  {
    if note in voices then Step(voices, [])
    else
      Step(voices[note := Voice(wave, freq, SustainGain)],
           [StartOscillator(note, wave, freq, SustainGain)])
  }

  /**
   Release a note. Its voice, if any, is ramped down and scheduled to stop,
   and leaves the registry at once; a note without a voice is a no-op.
   */
  function Stop(voices: Voices, note: Tone): (r: Step)
    ensures r.voices.Keys == voices.Keys - {note}
    ensures forall t :: t in r.voices ==> r.voices[t] == voices[t]
    ensures r.issued == if note in voices then [RampDownAndStop(note, ReleaseFloor, ReleaseTime)] else []
  {
    if note in voices then
      Step(voices - {note}, [RampDownAndStop(note, ReleaseFloor, ReleaseTime)])
    else Step(voices, [])
  }

  /**
   Bend the voice keyed by a note to a new frequency, without touching its
   gain or waveform; a note without a voice is a no-op and gets no voice.
   */
  function Retarget(voices: Voices, note: Tone, freq: real): (r: Step)
    ensures r.voices.Keys == voices.Keys
    ensures forall t :: t in voices && t != note ==> r.voices[t] == voices[t]
    ensures note in voices ==>
      && r.voices[note] == Voice(voices[note].wave, freq, voices[note].gain)
      && r.issued == [SetFrequency(note, freq)]
    ensures note !in voices ==> r == Step(voices, [])
  {
    if note in voices then
      Step(voices[note := voices[note].(freq := freq)], [SetFrequency(note, freq)])
    else Step(voices, [])
  }

  /** How a command changes the number of unreleased oscillators of a tone. */
  function Effect(c: Command, t: Tone): int {
    match c
    case StartOscillator(u, _, _, _) => if u == t then 1 else 0
    case SetFrequency(_, _) => 0
    case RampDownAndStop(u, _, _) => if u == t then -1 else 0
  }

  /** Oscillators started for a tone and not yet released, over a command history. */
  function Unreleased(log: seq<Command>, t: Tone): int
    decreases |log|
  {
    if log == [] then 0
    else Unreleased(log[..|log| - 1], t) + Effect(log[|log| - 1], t)
  }

  /** The frequency last scheduled for a tone (0.0 when none ever was). */
  function ScheduledFreq(log: seq<Command>, t: Tone): real
    decreases |log|
  {
    if log == [] then 0.0
    else
      match log[|log| - 1]
      case StartOscillator(u, _, f, _) => if u == t then f else ScheduledFreq(log[..|log| - 1], t)
      case SetFrequency(u, f) => if u == t then f else ScheduledFreq(log[..|log| - 1], t)
      case RampDownAndStop(_, _, _) => ScheduledFreq(log[..|log| - 1], t)
  }

  /**
   The registry agrees with the backend: every registered tone has exactly
   one unreleased oscillator, an unregistered tone has none, and a voice's
   recorded frequency is the last one scheduled for its tone.
   */
  ghost predicate Consistent(voices: Voices, log: seq<Command>) {
    && (forall t :: Unreleased(log, t) == if t in voices then 1 else 0)
    && (forall t :: t in voices ==> ScheduledFreq(log, t) == voices[t].freq)
  }

  lemma EmptyConsistent()
    ensures Consistent(map[], [])
  {
  }

  lemma HistorySnoc(log: seq<Command>, c: Command, t: Tone)
    ensures Unreleased(log + [c], t) == Unreleased(log, t) + Effect(c, t)
    ensures ScheduledFreq(log + [c], t) ==
      match c
      case StartOscillator(u, _, f, _) => if u == t then f else ScheduledFreq(log, t)
      case SetFrequency(u, f) => if u == t then f else ScheduledFreq(log, t)
      case RampDownAndStop(_, _, _) => ScheduledFreq(log, t)
  {
    assert (log + [c])[..|log|] == log;
  }

  /** Pressing keeps the registry and the backend in agreement. */
  lemma PlayKeepsConsistent(voices: Voices, log: seq<Command>, note: Tone, wave: Waveform, freq: real)
    requires Consistent(voices, log)
    ensures Consistent(Play(voices, note, wave, freq).voices, log + Play(voices, note, wave, freq).issued)
  {
    var r := Play(voices, note, wave, freq);
    if note in voices {
      assert log + r.issued == log;
    } else {
      forall t ensures Unreleased(log + r.issued, t) == if t in r.voices then 1 else 0 {
        HistorySnoc(log, r.issued[0], t);
      }
      forall t | t in r.voices ensures ScheduledFreq(log + r.issued, t) == r.voices[t].freq {
        HistorySnoc(log, r.issued[0], t);
      }
    }
  }

  /** Releasing keeps the registry and the backend in agreement. */
  lemma StopKeepsConsistent(voices: Voices, log: seq<Command>, note: Tone)
    requires Consistent(voices, log)
    ensures Consistent(Stop(voices, note).voices, log + Stop(voices, note).issued)
  {
    var r := Stop(voices, note);
    if note in voices {
      forall t ensures Unreleased(log + r.issued, t) == if t in r.voices then 1 else 0 {
        HistorySnoc(log, r.issued[0], t);
      }
      forall t | t in r.voices ensures ScheduledFreq(log + r.issued, t) == r.voices[t].freq {
        HistorySnoc(log, r.issued[0], t);
      }
    } else {
      assert log + r.issued == log;
    }
  }

  /** Bending keeps the registry and the backend in agreement. */
  lemma RetargetKeepsConsistent(voices: Voices, log: seq<Command>, note: Tone, freq: real)
    requires Consistent(voices, log)
    ensures Consistent(Retarget(voices, note, freq).voices, log + Retarget(voices, note, freq).issued)
  {
    var r := Retarget(voices, note, freq);
    if note in voices {
      forall t ensures Unreleased(log + r.issued, t) == if t in r.voices then 1 else 0 {
        HistorySnoc(log, r.issued[0], t);
      }
      forall t | t in r.voices ensures ScheduledFreq(log + r.issued, t) == r.voices[t].freq {
        HistorySnoc(log, r.issued[0], t);
      }
    } else {
      assert log + r.issued == log;
    }
  }

  /**
   A second press of a sounding note, whatever waveform or frequency it would
   use, changes nothing and issues nothing.
   */
  lemma PlayIdempotent(voices: Voices, note: Tone, wave: Waveform, freq: real, wave': Waveform, freq': real)
    ensures var once := Play(voices, note, wave, freq);
            Play(once.voices, note, wave', freq') == Step(once.voices, [])
  {
  }

  /** Press then release of a silent note restores the registry exactly. */
  lemma PlayThenStop(voices: Voices, note: Tone, wave: Waveform, freq: real)
    requires note !in voices
    ensures Stop(Play(voices, note, wave, freq).voices, note).voices == voices
  {
    var after := Stop(Play(voices, note, wave, freq).voices, note).voices;
    assert after.Keys == voices.Keys;
  }
}
