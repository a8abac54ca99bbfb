/**
 The keyboard component's mutable state and event handlers.

 The fields are the component's state and references: the selected scale
 and waveform, whether the audio context exists yet, the voice registry, and
 the two slide-session references. Each backend operation (start, re-tune,
 ramp down and stop a voice) is recorded in the ghost field log. The note
 and touch handlers are proved to update the state exactly as the functions
 of Registry and Glide say, and to keep the registry in agreement with the
 backend (Registry.Consistent); the scale buttons apply Tuning's clamps.
 */
module Keyboard {
  import opened Tuning
  import opened Registry
  import opened Glide

  class DecimalKeyboard {
    /** The tuning formula, fixed for the keyboard's lifetime. */
    const freq: FreqFn

    var scale: int
    var waveform: Waveform
    /** Whether the audio context has been created (it is created on first press). */
    var hasContext: bool
    var voices: Voices
    var initialTouch: Option<Touch>
    var slidingTone: Option<Tone>

    /** Every backend operation issued so far, oldest first. */
    ghost var log: seq<Command>

    ghost predicate Valid()
      reads this
    {
      && InRange(scale)
      && (voices != map[] ==> hasContext)
      && Consistent(voices, log)
    }

    /** The part of the state the slide protocol reads and writes. */
    function Snapshot(): State
      reads this
    {
      State(voices, initialTouch, slidingTone)
    }

    constructor (freq: FreqFn)
      ensures Valid()
      ensures this.freq == freq
      ensures scale == LaScale && waveform == Sine && !hasContext
      ensures voices == map[] && initialTouch == None && slidingTone == None
      ensures log == []
    {
      this.freq := freq;
      scale := LaScale;
      waveform := Sine;
      hasContext := false;
      voices := map[];
      initialTouch := None;
      slidingTone := None;
      log := [];
      EmptyConsistent();
    }

    /** Mouse-down on a key: sound the note unless it is already sounding. */
    method PlayNote(note: Tone)
      requires Valid()
      modifies this
      ensures Valid() && hasContext
      ensures var played := Play(old(voices), note, old(waveform), freq(note, old(scale)));
        voices == played.voices && log == old(log) + played.issued
      ensures scale == old(scale) && waveform == old(waveform)
      ensures initialTouch == old(initialTouch) && slidingTone == old(slidingTone)
    {
      hasContext := true;
      PlayKeepsConsistent(voices, log, note, waveform, freq(note, scale));
      if note in voices {
        return;
      }
      var f := freq(note, scale);
      voices := voices[note := Voice(waveform, f, SustainGain)];
      log := log + [StartOscillator(note, waveform, f, SustainGain)];
    }

    /** Mouse-up on a key: release the note's voice, if it has one. */
    method StopNote(note: Tone)
      requires Valid()
      modifies this
      ensures Valid()
      ensures var stopped := Stop(old(voices), note);
        voices == stopped.voices && log == old(log) + stopped.issued
      ensures scale == old(scale) && waveform == old(waveform) && hasContext == old(hasContext)
      ensures initialTouch == old(initialTouch) && slidingTone == old(slidingTone)
    {
      StopKeepsConsistent(voices, log, note);
      if note in voices {
        // a registered voice implies the audio context exists
        assert hasContext;
        log := log + [RampDownAndStop(note, ReleaseFloor, ReleaseTime)];
        voices := voices - {note};
      }
    }

    /** A touch begins on a key at horizontal position x. */
    method HandleTouchStart(x: real, note: Tone)
      requires Valid()
      modifies this
      ensures Valid() && hasContext
      ensures var started := TouchStart(old(Snapshot()), x, note, old(waveform), old(scale), freq);
        Snapshot() == started.state && log == old(log) + started.issued
      ensures scale == old(scale) && waveform == old(waveform)
    {
      initialTouch := Some(Touch(x, note));
      PlayNote(note);
      slidingTone := Some(note);
    }

    /** The finger moves to x over a key keyWidth wide. */
    method HandleTouchMove(x: real, keyWidth: real)
      requires Valid() && keyWidth > 0.0
      modifies this
      ensures Valid()
      ensures var moved := TouchMove(old(Snapshot()), x, keyWidth, old(scale), freq);
        Snapshot() == moved.state && log == old(log) + moved.issued
      ensures scale == old(scale) && waveform == old(waveform) && hasContext == old(hasContext)
    {
      if initialTouch.None? || !Truthy(slidingTone) {
        return;
      }
      var currentX := x;
      var initialX := initialTouch.value.x;
      var initialTone := initialTouch.value.tone;
      var slideRatio := (currentX - initialX) / keyWidth;
      var newTone := initialTone + slideRatio;
      var newFreq := freq(newTone, scale);
      RetargetKeepsConsistent(voices, log, initialTone, newFreq);
      if initialTone in voices {
        assert hasContext;
        voices := voices[initialTone := voices[initialTone].(freq := newFreq)];
        log := log + [SetFrequency(initialTone, newFreq)];
      }
    }

    /** The touch ends: release the anchor if a slide was in progress, then go idle. */
    method HandleTouchEnd()
      requires Valid()
      modifies this
      ensures Valid()
      ensures var ended := TouchEnd(old(Snapshot()));
        Snapshot() == ended.state && log == old(log) + ended.issued
      ensures scale == old(scale) && waveform == old(waveform) && hasContext == old(hasContext)
    {
      if initialTouch.Some? && Truthy(slidingTone) {
        StopNote(initialTouch.value.tone);
      }
      initialTouch := None;
      slidingTone := None;
    }

    /** The "previous scale" button. */
    method ScaleDown()
      requires Valid()
      modifies this`scale
      ensures Valid()
      ensures scale == PrevScale(old(scale))
    {
      scale := PrevScale(scale);
    }

    /** The "next scale" button. */
    method ScaleUp()
      requires Valid()
      modifies this`scale
      ensures Valid()
      ensures scale == NextScale(old(scale))
    {
      scale := NextScale(scale);
    }

    /** The waveform selector. */
    method SelectWaveform(w: Waveform)
      requires Valid()
      modifies this`waveform
      ensures Valid()
      ensures waveform == w
    {
      waveform := w;
    }
  }

  /**
   A tap (touch start then end with no move) on a silent key sounds it once
   and releases it: the registry is back where it was, and the backend saw
   exactly one start and one release of that tone. This holds during a slide
   too, since the touch start replaces the session.
   */
  method Tap(k: DecimalKeyboard, x: real, note: Tone)
    requires k.Valid() && note != 0.0 && note !in k.voices
    modifies k
    ensures k.Valid() && Idle(k.Snapshot())
    ensures k.voices == old(k.voices)
    ensures k.log == old(k.log) + [
      StartOscillator(note, k.waveform, k.freq(note, k.scale), SustainGain),
      RampDownAndStop(note, ReleaseFloor, ReleaseTime)]
  {
    ghost var before := k.voices;
    ghost var played := Play(before, note, k.waveform, k.freq(note, k.scale));
    PlayThenStop(before, note, k.waveform, k.freq(note, k.scale));
    k.HandleTouchStart(x, note);
    assert k.voices == played.voices;
    assert Sliding(k.Snapshot()) && Anchor(k.Snapshot()) == note;
    k.HandleTouchEnd();
  }
}
