/**
 The slide (glissando) protocol over the voice registry.

 A touch on a key anchors a session at the touch position and the key's tone
 and sounds the tone; each move re-tunes the voice keyed by the anchor tone
 to the tone under the finger, measured in key widths from the anchor; the
 end of the touch releases the anchor tone and clears the session.

 The session is held in two references, the anchor touch and the sliding
 tone, both cleared when idle. The sliding tone is tested for JavaScript
 truthiness, so a tone of 0 counts as no session.
 */
module Glide {
  import opened Tuning
  import opened Registry

  datatype Option<T> = None | Some(value: T)

  /** Where a touch began and on which tone. */
  datatype Touch = Touch(x: real, tone: Tone)

  /** The keyboard's mutable state: the registry and the two session references. */
  datatype State = State(voices: Voices, initialTouch: Option<Touch>, slidingTone: Option<Tone>)

  /** A state after an event together with the backend operations the event issued. */
  datatype Outcome = Outcome(state: State, issued: seq<Command>)

  /** One touch-move event: the finger's position and the touched key's width. */
  datatype Move = Move(x: real, keyWidth: real)

  /**
   A number held in a reference is truthy when set and non-zero: an empty
   reference and a tone of 0 are falsy, every key of the grid (1 or more) is
   truthy.
   */
  predicate Truthy(t: Option<Tone>)
    ensures t.None? ==> !Truthy(t)
    ensures t == Some(0.0) ==> !Truthy(t)
    ensures t.Some? && t.value >= 1.0 ==> Truthy(t)
  {
    t.Some? && t.value != 0.0
  }

  /** A slide is in progress: the guard of the move and end handlers. */
  predicate Sliding(s: State) {
    s.initialTouch.Some? && Truthy(s.slidingTone)
  }

  predicate Idle(s: State) {
    s.initialTouch.None? && s.slidingTone.None?
  }

  function Anchor(s: State): Tone
    requires s.initialTouch.Some?
  {
    s.initialTouch.value.tone
  }

  /** Touch start: anchor at (x, note), sound the note, mark it as sliding. */
  function TouchStart(s: State, x: real, note: Tone, wave: Waveform, scale: int, freq: FreqFn): (r: Outcome)
    ensures r.state.initialTouch == Some(Touch(x, note)) && r.state.slidingTone == Some(note)
    ensures note != 0.0 ==> Sliding(r.state) && Anchor(r.state) == note
    ensures r.state.voices.Keys == s.voices.Keys + {note}
    ensures forall t :: t in s.voices ==> r.state.voices[t] == s.voices[t]
    ensures note in s.voices ==> r.issued == []
    ensures note !in s.voices ==>
      && r.state.voices[note] == Voice(wave, freq(note, scale), SustainGain)
      && r.issued == [StartOscillator(note, wave, freq(note, scale), SustainGain)]
  {
    var played := Play(s.voices, note, wave, freq(note, scale));
    Outcome(State(played.voices, Some(Touch(x, note)), Some(note)), played.issued)
  }

  /**
   Touch move: when sliding, re-tune the voice keyed by the anchor tone to
   the tone the finger is over; otherwise, or when that voice is gone, do
   nothing. No voice is ever added or removed.
   */
  function TouchMove(s: State, x: real, keyWidth: real, scale: int, freq: FreqFn): (r: Outcome)
    requires keyWidth > 0.0
    ensures !Sliding(s) ==> r == Outcome(s, [])
    ensures r.state.initialTouch == s.initialTouch && r.state.slidingTone == s.slidingTone
    ensures r.state.voices.Keys == s.voices.Keys
    ensures forall t :: t in s.voices && !(Sliding(s) && t == Anchor(s)) ==> r.state.voices[t] == s.voices[t]
    ensures Sliding(s) && Anchor(s) in s.voices ==>
      var target := freq(Anchor(s) + (x - s.initialTouch.value.x) / keyWidth, scale);
      && r.state.voices[Anchor(s)] == s.voices[Anchor(s)].(freq := target)
      && r.issued == [SetFrequency(Anchor(s), target)]
    ensures Sliding(s) && Anchor(s) !in s.voices ==> r == Outcome(s, [])
  {
    if !Sliding(s) then Outcome(s, [])
    else
      var initialX := s.initialTouch.value.x;
      var initialTone := s.initialTouch.value.tone;
      var slideRatio := (x - initialX) / keyWidth;
      var newTone := initialTone + slideRatio;
      var bent := Retarget(s.voices, initialTone, freq(newTone, scale));
      Outcome(s.(voices := bent.voices), bent.issued)
  }

  /** Touch end: release the anchor tone if a slide was in progress; always go idle. */
  function TouchEnd(s: State): (r: Outcome)
    ensures Idle(r.state)
    ensures Sliding(s) ==>
      && r.state.voices.Keys == s.voices.Keys - {Anchor(s)}
      && r.issued == (if Anchor(s) in s.voices then [RampDownAndStop(Anchor(s), ReleaseFloor, ReleaseTime)] else [])
    ensures !Sliding(s) ==> r.state.voices == s.voices && r.issued == []
    ensures forall t :: t in r.state.voices ==> r.state.voices[t] == s.voices[t]
  {
    if Sliding(s) then
      var stopped := Stop(s.voices, Anchor(s));
      Outcome(State(stopped.voices, None, None), stopped.issued)
    else Outcome(State(s.voices, None, None), [])
  }

  predicate WidthsPositive(moves: seq<Move>) {
    forall i :: 0 <= i < |moves| ==> moves[i].keyWidth > 0.0
  }

  /** A run of move events, first event first. */
  function MoveAll(s: State, moves: seq<Move>, scale: int, freq: FreqFn): Outcome
    requires WidthsPositive(moves)
    decreases |moves|
  {
    if moves == [] then Outcome(s, [])
    else
      var first := TouchMove(s, moves[0].x, moves[0].keyWidth, scale, freq);
      var rest := MoveAll(first.state, moves[1..], scale, freq);
      Outcome(rest.state, first.issued + rest.issued)
  }

  /**
   Any run of moves keeps the session and the set of sounding tones; it
   leaves every voice but the anchor's as it was, keeps the anchor voice's
   waveform and gain, and issues nothing but frequency changes of the anchor
   tone: a slide never starts or stops an oscillator.
   */
  lemma {:induction false} MovesOnlyRetune(s: State, moves: seq<Move>, scale: int, freq: FreqFn)
    requires WidthsPositive(moves)
    ensures MoveAll(s, moves, scale, freq).state.initialTouch == s.initialTouch
    ensures MoveAll(s, moves, scale, freq).state.slidingTone == s.slidingTone
    ensures MoveAll(s, moves, scale, freq).state.voices.Keys == s.voices.Keys
    ensures forall t :: t in s.voices && !(Sliding(s) && t == Anchor(s)) ==>
      MoveAll(s, moves, scale, freq).state.voices[t] == s.voices[t]
    ensures forall t :: t in s.voices ==>
      && MoveAll(s, moves, scale, freq).state.voices[t].wave == s.voices[t].wave
      && MoveAll(s, moves, scale, freq).state.voices[t].gain == s.voices[t].gain
    ensures forall c :: c in MoveAll(s, moves, scale, freq).issued ==>
      c.SetFrequency? && Sliding(s) && c.tone == Anchor(s)
    decreases |moves|
  {
    if moves != [] {
      var first := TouchMove(s, moves[0].x, moves[0].keyWidth, scale, freq);
      var rest := MoveAll(first.state, moves[1..], scale, freq);
      MovesOnlyRetune(first.state, moves[1..], scale, freq);
      assert Sliding(first.state) == Sliding(s);
      assert Sliding(s) ==> Anchor(first.state) == Anchor(s);
      forall i | 0 <= i < |first.issued|
        ensures first.issued[i].SetFrequency? && Sliding(s) && first.issued[i].tone == Anchor(s)
      {
        assert Sliding(s) && Anchor(s) in s.voices;
      }
      var issued := first.issued + rest.issued;
      assert MoveAll(s, moves, scale, freq).issued == issued;
      forall i | 0 <= i < |issued|
        ensures issued[i].SetFrequency? && Sliding(s) && issued[i].tone == Anchor(s)
      {
        if i >= |first.issued| {
          assert issued[i] == rest.issued[i - |first.issued|];
        }
      }
    } else {
      assert MoveAll(s, moves, scale, freq).issued == [];
    }
  }

  /** After a run of moves, the anchor voice sounds the tone under the last move. */
  lemma {:induction false} LastMoveDecidesPitch(s: State, moves: seq<Move>, scale: int, freq: FreqFn)
    requires WidthsPositive(moves) && moves != []
    requires Sliding(s) && Anchor(s) in s.voices
    ensures Anchor(s) in MoveAll(s, moves, scale, freq).state.voices
    ensures var last := moves[|moves| - 1];
      MoveAll(s, moves, scale, freq).state.voices[Anchor(s)].freq
        == freq(Anchor(s) + (last.x - s.initialTouch.value.x) / last.keyWidth, scale)
    decreases |moves|
  {
    var first := TouchMove(s, moves[0].x, moves[0].keyWidth, scale, freq);
    MovesOnlyRetune(s, moves, scale, freq);
    if |moves| > 1 {
      LastMoveDecidesPitch(first.state, moves[1..], scale, freq);
    } else {
      assert MoveAll(s, moves, scale, freq).state == first.state;
    }
  }

  /**
   A whole gesture, start then any moves then end, leaves no voice for the
   anchor tone, leaves every other voice as it was, and ends idle.
   */
  lemma {:induction false} Gesture(s: State, x: real, note: Tone, moves: seq<Move>, wave: Waveform, scale: int, freq: FreqFn)
    requires note != 0.0 && WidthsPositive(moves)
    ensures var started := TouchStart(s, x, note, wave, scale, freq);
      var moved := MoveAll(started.state, moves, scale, freq);
      var ended := TouchEnd(moved.state).state;
      && Idle(ended)
      && ended.voices.Keys == s.voices.Keys - {note}
      && (forall t :: t in ended.voices ==> ended.voices[t] == s.voices[t])
  {
    var started := TouchStart(s, x, note, wave, scale, freq);
    MovesOnlyRetune(started.state, moves, scale, freq);
  }

  /**
   A slide that starts on a silent key and comes back to where it started
   leaves the registry exactly as the press made it: the anchor voice is
   back at the key's own frequency.
   */
  lemma {:induction false} SlideBackRestores(s: State, x: real, note: Tone, moves: seq<Move>, wave: Waveform, scale: int, freq: FreqFn)
    requires note != 0.0 && note !in s.voices
    requires WidthsPositive(moves) && moves != [] && moves[|moves| - 1].x == x
    ensures var started := TouchStart(s, x, note, wave, scale, freq);
      MoveAll(started.state, moves, scale, freq).state == started.state
  {
    var started := TouchStart(s, x, note, wave, scale, freq);
    var moved := MoveAll(started.state, moves, scale, freq);
    MovesOnlyRetune(started.state, moves, scale, freq);
    LastMoveDecidesPitch(started.state, moves, scale, freq);
    var last := moves[|moves| - 1];
    assert (last.x - x) / last.keyWidth == 0.0;
    assert moved.state.voices[note] == started.state.voices[note];
    assert moved.state.voices == started.state.voices;
  }

  /**
   A second touch during a slide moves the anchor to the new key without
   releasing the old anchor: after the touch ends the first voice is still
   registered.
   */
  lemma SecondTouchKeepsFirstVoice(s: State, x: real, note: Tone, wave: Waveform, scale: int, freq: FreqFn)
    requires Sliding(s) && Anchor(s) in s.voices && note != Anchor(s)
    ensures var ended := TouchEnd(TouchStart(s, x, note, wave, scale, freq).state).state;
      Anchor(s) in ended.voices && ended.voices[Anchor(s)] == s.voices[Anchor(s)]
  {
  }
}
