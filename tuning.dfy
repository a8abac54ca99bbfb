/**
 Tuning constants of the decimal keyboard and the scale selector.

 A tone is a position in a lattice of ten equal steps per octave; a scale is
 an octave band in [1, 10]. The tuning formula itself (real-exponent powers of
 2^(1/10)) is not modelled: the operations that need it take it as a
 parameter of type FreqFn.
 */
module Tuning {

  /** A position in the decimal tuning lattice; whole numbers are the named notes. */
  type Tone = real

  /** The tuning formula, (tone, scale) to Hz, left uninterpreted. */
  type FreqFn = (Tone, int) -> real

  const LaTone: int := 8
  const LaScale: int := 5
  const MinScale: int := 1
  const MaxScale: int := 10

  predicate InRange(s: int) {
    MinScale <= s <= MaxScale
  }

  /** The "previous scale" button: one octave band down, never below the lowest. */
  function PrevScale(s: int): (r: int)
    ensures MinScale <= r
    ensures s > MinScale ==> r == s - 1
    ensures s <= MinScale ==> r == MinScale
    ensures InRange(s) ==> InRange(r)
    ensures MinScale < s <= MaxScale ==> NextScale(r) == s
  {
    if s - 1 < MinScale then MinScale else s - 1
  }

  /** The "next scale" button: one octave band up, never above the highest. */
  function NextScale(s: int): (r: int)
    ensures r <= MaxScale
    ensures s < MaxScale ==> r == s + 1
    ensures s >= MaxScale ==> r == MaxScale
    ensures InRange(s) ==> InRange(r)
  {
    if s + 1 > MaxScale then MaxScale else s + 1
  }

  /**
   The mirror of PrevScale's undo law: from 1..9 the previous button undoes
   the next button. (It is stated apart because NextScale's contract cannot
   call PrevScale, whose own contract calls NextScale.)
   */
  lemma NextUndoneByPrevious(s: int)
    requires MinScale <= s < MaxScale
    ensures PrevScale(NextScale(s)) == s
  {
  }

  datatype ScaleButton = Previous | Next

  function Click(s: int, b: ScaleButton): int {
    match b
    case Previous => PrevScale(s)
    case Next => NextScale(s)
  }

  /** The scale after a run of button clicks, first click first. */
  function ClickAll(s: int, clicks: seq<ScaleButton>): int
    decreases |clicks|
  {
    if clicks == [] then s else ClickAll(Click(s, clicks[0]), clicks[1..])
  }

  /** However the two buttons are clicked, the scale never leaves [1, 10]. */
  lemma {:induction false} ClicksStayInRange(s: int, clicks: seq<ScaleButton>)
    requires InRange(s)
    ensures InRange(ClickAll(s, clicks))
    decreases |clicks|
  {
    if clicks != [] {
      ClicksStayInRange(Click(s, clicks[0]), clicks[1..]);
    }
  }

  /** Enough "previous" clicks always land on the lowest band and stay there. */
  lemma {:induction false} PreviousClicksFloor(s: int, n: nat)
    requires MinScale <= s && s - MinScale <= n
    ensures ClickAll(s, seq(n, _ => Previous)) == MinScale
    decreases n
  {
    if n > 0 {
      var clicks := seq(n, _ => Previous);
      assert clicks[0] == Previous;
      assert clicks[1..] == seq(n - 1, _ => Previous);
      PreviousClicksFloor(PrevScale(s), n - 1);
    }
  }

  /** Enough "next" clicks always land on the highest band and stay there. */
  lemma {:induction false} NextClicksCap(s: int, n: nat)
    requires s <= MaxScale && MaxScale - s <= n
    ensures ClickAll(s, seq(n, _ => Next)) == MaxScale
    decreases n
  {
    if n > 0 {
      var clicks := seq(n, _ => Next);
      assert clicks[0] == Next;
      assert clicks[1..] == seq(n - 1, _ => Next);
      NextClicksCap(NextScale(s), n - 1);
    }
  }
}
