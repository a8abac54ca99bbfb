/**
 The row of keys shown for a zoom level, and the marker on the reference key.

 Values are exact reals. The key labels go through a round to two decimals
 (toFixed(2) followed by parseFloat), modelled here as rounding to the nearest
 hundredth with ties away from zero, which is what toFixed does on an exact
 value.
 */
module NoteGrid {
  import opened Tuning

  /** The zoom levels the keyboard offers. */
  predicate ZoomOption(level: int) {
    level == 1 || level == 2 || level == 5 || level == 10
  }

  /** A non-negative value rounded to the nearest hundredth, halves up. */
  function RoundUpHundredths(x: real): (r: real)
    requires x >= 0.0
    ensures (r * 100.0).Floor as real == r * 100.0
    ensures x - 0.005 < r <= x + 0.005
  {
    ((x * 100.0 + 0.5).Floor as real) / 100.0
  }

  /** parseFloat(x.toFixed(2)): the value rounded to two decimals. */
  function Hundredths(x: real): (r: real)
    ensures (r * 100.0).Floor as real == r * 100.0
    ensures x - 0.005 <= r <= x + 0.005
  {
    if x < 0.0 then
      var a := RoundUpHundredths(-x);
      assert -a * 100.0 == (-(a * 100.0).Floor) as real;
      -a
    else RoundUpHundredths(x)
  }

  /** The label and key of the i-th note at a zoom level. */
  function NoteAt(level: int, i: int): (r: Tone)
    requires level > 0
    ensures (r * 100.0).Floor as real == r * 100.0
    ensures 1.0 + (i as real) / (level as real) - 0.005 <= r <= 1.0 + (i as real) / (level as real) + 0.005
  {
    Hundredths(1.0 + (i as real) / (level as real))
  }

  /** The notes for a zoom level, built one key at a time. */
  method GenerateNotes(level: int) returns (notes: seq<Tone>)
    ensures |notes| == if level > 0 then 10 * level else 0
    ensures forall i :: 0 <= i < |notes| ==> level > 0 && notes[i] == NoteAt(level, i)
  {
    notes := [];
    var totalNotes := 10 * level;
    var i := 0;
    while i < totalNotes
      invariant 0 <= i && (i <= totalNotes || i == 0)
      invariant |notes| == i
      invariant forall k :: 0 <= k < i ==> level > 0 && notes[k] == NoteAt(level, k)
    {
      var tone := 1.0 + (i as real) / (level as real);
      notes := notes + [Hundredths(tone)];
      i := i + 1;
    }
  }

  /** A whole number of hundredths is left alone by the rounding. */
  lemma HundredthsOfWhole(k: int)
    ensures Hundredths((k as real) / 100.0) == (k as real) / 100.0
  {
    var x := (k as real) / 100.0;
    if k < 0 {
      assert -x * 100.0 + 0.5 == (-k) as real + 0.5;
      assert (-x * 100.0 + 0.5).Floor == -k;
    } else {
      assert x * 100.0 + 0.5 == k as real + 0.5;
      assert (x * 100.0 + 0.5).Floor == k;
    }
  }

  /**
   When the zoom level divides 100 every note is an exact hundredth, so the
   rounding changes nothing: note i is exactly 1 + i/level. This covers every
   zoom level the keyboard offers.
   */
  lemma ExactOnDivisorsOf100(level: int, i: int)
    requires level > 0 && 100 % level == 0 && i >= 0
    ensures NoteAt(level, i) == 1.0 + (i as real) / (level as real)
  {
    var q := 100 / level;
    assert level * q == 100;
    var x := 1.0 + (i as real) / (level as real);
    assert (level as real) * (q as real) == 100.0;
    assert (i as real) / (level as real) * 100.0 == ((i * q) as real) by {
      calc {
        (i as real) / (level as real) * 100.0;
        (i as real) / (level as real) * ((level as real) * (q as real));
        (i as real) * (q as real);
      }
    }
    assert x == ((100 + i * q) as real) / 100.0;
    HundredthsOfWhole(100 + i * q);
  }

  /**
   For every zoom level the keyboard offers, the keys are exactly
   1, 1 + 1/level, ..., 11 - 1/level: one octave of ten steps, each split
   into level keys, untouched by the rounding.
   */
  lemma OfferedZoomsExact(level: int, i: int)
    requires ZoomOption(level) && 0 <= i < 10 * level
    ensures NoteAt(level, i) == 1.0 + (i as real) / (level as real)
    ensures 1.0 <= NoteAt(level, i) < 11.0
  {
    ExactOnDivisorsOf100(level, i);
    assert (i as real) < 10.0 * (level as real);
    assert (i as real) / (level as real) < 10.0;
  }

  /** Two values at least a hundredth apart keep their order after rounding. */
  lemma HundredthsSeparates(x: real, y: real)
    requires 0.0 <= x && x + 0.01 <= y
    ensures Hundredths(x) < Hundredths(y)
  {
    assert x * 100.0 + 0.5 + 1.0 <= y * 100.0 + 0.5;
    assert (x * 100.0 + 0.5).Floor + 1 <= (y * 100.0 + 0.5).Floor;
  }

  /**
   Up to 100 keys per step the keys are strictly increasing (no two keys
   share a label or a voice); the first key is always tone 1.
   */
  lemma NotesIncreasing(level: int, i: int, j: int)
    requires 0 < level <= 100 && 0 <= i < j
    ensures NoteAt(level, 0) == 1.0
    ensures NoteAt(level, i) < NoteAt(level, j)
  {
    var x := 1.0 + (i as real) / (level as real);
    var y := 1.0 + (j as real) / (level as real);
    var step := ((j - i) as real) / (level as real);
    assert y - x == step;
    assert step * (level as real) == (j - i) as real;
    assert step >= 0.01;
    HundredthsSeparates(x, y);
    HundredthsOfWhole(100);
  }

  /** At zoom 1 the keys are the ten named notes 1, 2, ..., 10. */
  lemma ZoomOneNamedNotes(i: int)
    requires 0 <= i < 10
    ensures NoteAt(1, i) == (i + 1) as real
  {
    ExactOnDivisorsOf100(1, i);
  }

  /** At zoom 10 the keys run from 1.0 to 10.9 in steps of a tenth. */
  lemma ZoomTenTenths(i: int)
    requires 0 <= i < 100
    ensures NoteAt(10, i) == 1.0 + (i as real) / 10.0
    ensures NoteAt(10, 99) == 10.9
  {
    ExactOnDivisorsOf100(10, i);
    ExactOnDivisorsOf100(10, 99);
  }

  /** Math.round: the nearest integer, halves rounded up. */
  function JsRound(x: real): (r: int)
    ensures x - 0.5 < r as real <= x + 0.5
  {
    (x + 0.5).Floor
  }

  /**
   The red dot: reference scale, a note that rounds to the reference tone,
   zoom 1; the notes that round to 8 are those in [7.5, 8.5).
   */
  predicate IsLa440(scale: int, note: Tone, zoomLevel: int)
    ensures IsLa440(scale, note, zoomLevel)
        <==> (scale == LaScale && zoomLevel == 1 && 7.5 <= note < 8.5)
  {
    scale == LaScale && JsRound(note) == LaTone && zoomLevel == 1
  }

  /**
   Among the keys of any zoom level, the dot is shown on exactly one: the
   eighth key at zoom 1 in the reference scale; in any other configuration it
   is shown on none.
   */
  lemma La440MarksOneKey(scale: int, zoomLevel: int, i: int)
    requires zoomLevel > 0 && 0 <= i < 10 * zoomLevel
    ensures IsLa440(scale, NoteAt(zoomLevel, i), zoomLevel)
        <==> (scale == LaScale && zoomLevel == 1 && i == LaTone - 1)
  {
    if zoomLevel == 1 {
      ZoomOneNamedNotes(i);
      assert JsRound((i + 1) as real) == i + 1;
    }
  }
}
