# Decimal microtonal keyboard: verified model of the note engine

The keyboard plays a decimal tuning system: ten equal steps per octave, tones
written as decimals (1, 1.1, ... 10.9), and a scale selector in [1, 10] that
moves every tone by whole octaves. This project models the sequential logic
under the keyboard's view:

- **Voice registry** (`Registry`): a map from a tone to the one voice
  (oscillator and gain) sounding it. Pressing a sounding note does nothing;
  releasing a silent note does nothing; bending a silent note does nothing
  and does not bring it back. Each backend operation (start a voice, re-tune
  it, ramp it down and stop it) is recorded as one `Command`, standing for
  the several Web Audio calls that perform it, and `Registry.Consistent`
  ties the map to that history: each
  registered tone has exactly one started-and-unreleased oscillator, an
  unregistered tone has none, and each voice's recorded frequency is the
  last one scheduled for it.
- **Slide state machine** (`Glide`): touch start anchors a session at the
  touch position and the key's tone and sounds the tone; each move re-tunes
  the voice keyed by the anchor tone to `freq(anchor + (x - anchorX) / keyWidth, scale)`;
  touch end releases the anchor and returns to idle. A run of moves never
  adds, removes or restarts a voice.
- **Note grid and scale buttons** (`NoteGrid`, `Tuning`): the keys of a zoom
  level (`10 * level` keys `1 + i/level`, rounded to two decimals), the
  scale buttons that clamp to [1, 10], and the red dot on the A440 key.
- **The component** (`Keyboard.DecimalKeyboard`): a class whose fields are
  the component's state and references, with one method per handler. The
  note and touch handlers are each proved to do exactly what the
  corresponding function of `Registry` or `Glide` says and to keep
  `Registry.Consistent`; the scale buttons apply `Tuning.PrevScale` and
  `Tuning.NextScale`; the waveform selector only sets the waveform field.

The tuning formula (`getFrequency`) uses real-exponent powers; it is a
parameter of type `Tuning.FreqFn`, fixed when the keyboard is constructed.
All tones and frequencies are exact reals.

Some behaviours of the program worth knowing, all kept in the model:

- A touch start during a slide re-anchors without releasing the first
  voice, which keeps sounding after the touch ends
  (`Glide.SecondTouchKeepsFirstVoice`).
- If the anchor's voice is released by a mouse-up during a slide, the session
  stays and its moves and end do nothing to the registry.
- The key value rounded to two decimals is both the registry key and the
  tone given to the tuning formula.
- The move and end handlers test the sliding tone for JavaScript truthiness,
  so a tone of 0 would count as no session (`Glide.Truthy`). Grid tones are
  at least 1, so this never happens from the keyboard.

## Model

| member | source | states |
|---|---|---|
| Tuning.PrevScale | App.jsx:119 | the previous-scale button goes one band down and floors at 1; from any scale in [1, 10] it stays in [1, 10]; from 2..10 the next button undoes it |
| Tuning.NextScale | App.jsx:126 | the next-scale button goes one band up and caps at 10; from any scale in [1, 10] it stays in [1, 10] |
| Tuning.NextUndoneByPrevious | App.jsx:119-126 | from scale 1..9, the previous button undoes the next button |
| Tuning.ClicksStayInRange | App.jsx:118-130 | any sequence of scale-button clicks from a scale in [1, 10] ends in [1, 10] |
| Tuning.PreviousClicksFloor | App.jsx:119 | enough previous-scale clicks always reach scale 1 and stay there |
| Tuning.NextClicksCap | App.jsx:126 | enough next-scale clicks always reach scale 10 and stay there |
| NoteGrid.RoundUpHundredths | App.jsx:36 | rounding a non-negative value to two decimals gives a whole number of hundredths within half a hundredth, ties up |
| NoteGrid.Hundredths | App.jsx:36 | toFixed(2) then parseFloat gives a whole number of hundredths within half a hundredth of the value |
| NoteGrid.NoteAt | App.jsx:35-36 | key i at a zoom level is a whole number of hundredths within half a hundredth of 1 + i/level |
| NoteGrid.GenerateNotes | App.jsx:31-39 | the loop returns 10*level keys (none for a level of 0 or less), key i being 1 + i/level rounded to two decimals |
| NoteGrid.HundredthsOfWhole | App.jsx:36 | a value that is already a whole number of hundredths, of either sign, is unchanged by the rounding |
| NoteGrid.ExactOnDivisorsOf100 | App.jsx:31-39 | when the zoom level divides 100, key i is exactly 1 + i/level |
| NoteGrid.OfferedZoomsExact | App.jsx:150-153 | for the offered zoom levels 1, 2, 5, 10, every key is exactly 1 + i/level and lies in [1, 11) |
| NoteGrid.HundredthsSeparates | App.jsx:36 | two non-negative values a hundredth or more apart stay strictly ordered after rounding |
| NoteGrid.NotesIncreasing | App.jsx:31-39 | for zoom levels up to 100 the keys strictly increase from key 0, which is 1 |
| NoteGrid.ZoomOneNamedNotes | App.jsx:31-39 | at zoom 1 the keys are 1, 2, ..., 10 |
| NoteGrid.ZoomTenTenths | App.jsx:31-39 | at zoom 10 the keys are 1.0, 1.1, ..., 10.9 |
| NoteGrid.JsRound | App.jsx:161 | Math.round returns the integer within half of its argument, halves up |
| NoteGrid.IsLa440 | App.jsx:161 | the dot shows iff the scale is 5, the zoom is 1 and the note lies in [7.5, 8.5), the notes Math.round takes to 8 |
| NoteGrid.La440MarksOneKey | App.jsx:160-161 | among a zoom level's keys the A440 dot is on a key iff the scale is 5, the zoom is 1 and it is the eighth key (tone 8) |
| Registry.Play | App.jsx:41-59 | pressing a sounding note changes nothing and issues nothing; otherwise exactly that note is added, with the waveform, its frequency and gain 0.2, one oscillator start is issued, and all other voices are untouched |
| Registry.Stop | App.jsx:61-71 | releasing removes exactly the note's key and keeps every other voice; a ramp to 0.0001 with a stop 0.3 s later is issued iff the note had a voice; a silent note is a no-op |
| Registry.Retarget | App.jsx:96-100 | bending keeps the key set and every other voice, changes only the frequency of the note's voice and issues one frequency change; a silent note is a no-op |
| Registry.PlayKeepsConsistent | App.jsx:46-58 | pressing keeps one unreleased oscillator per registered tone and none for others, and each voice's frequency equal to the last one scheduled |
| Registry.StopKeepsConsistent | App.jsx:62-69 | releasing keeps the registry and the backend's oscillators in agreement |
| Registry.RetargetKeepsConsistent | App.jsx:97-100 | bending keeps the registry and the backend's oscillators and scheduled frequencies in agreement |
| Registry.PlayIdempotent | App.jsx:46 | a second press of a note, with any waveform or frequency, changes nothing and issues nothing |
| Registry.PlayThenStop | App.jsx:41-71 | press then release of a silent note gives back the registry it started from |
| Glide.Truthy | App.jsx:85 | the guard's truthiness test on the sliding tone: an empty reference and a tone of 0 fail it, every grid tone (1 or more) passes |
| Glide.TouchStart | App.jsx:74-82 | touch start anchors the session at (x, note), marks the note as sliding, and leaves exactly the old keys plus the note; an already sounding note gets no second oscillator |
| Glide.TouchMove | App.jsx:84-101 | when idle nothing changes; when sliding the session and key set are kept, only the anchor's voice changes, its frequency becoming freq(anchor + (x - anchorX)/keyWidth, scale); a released anchor stays released |
| Glide.TouchEnd | App.jsx:103-109 | touch end always clears both session references; it removes exactly the anchor's key when a slide was in progress and changes nothing otherwise |
| Glide.MovesOnlyRetune | App.jsx:84-101 | any run of moves keeps the session, the key set, every non-anchor voice and the anchor voice's waveform and gain, and issues only frequency changes of the anchor: a slide never starts a second oscillator |
| Glide.LastMoveDecidesPitch | App.jsx:90-100 | after a run of moves the anchor voice sounds the tone under the last move |
| Glide.Gesture | App.jsx:74-109 | start, any moves, end: ends idle with no voice for the anchor tone and every other voice as it was |
| Glide.SlideBackRestores | App.jsx:74-101 | a slide that starts on a silent key and returns to its start position leaves the registry exactly as the press made it |
| Glide.SecondTouchKeepsFirstVoice | App.jsx:74-82 | a touch start during a slide re-anchors without releasing the first anchor, whose voice survives the touch end |
| Keyboard.DecimalKeyboard.constructor | App.jsx:10-16 | a new keyboard is at scale 5 with a sine wave, no audio context, no voices, no session and no backend calls |
| Keyboard.DecimalKeyboard.PlayNote | App.jsx:41-59 | creates the audio context, updates the registry and issues the calls as Registry.Play says, keeping the registry consistent with the backend |
| Keyboard.DecimalKeyboard.StopNote | App.jsx:61-71 | updates the registry and issues the calls as Registry.Stop says; a voice to release always has an audio context |
| Keyboard.DecimalKeyboard.HandleTouchStart | App.jsx:74-82 | sets the session and sounds the note as Glide.TouchStart says |
| Keyboard.DecimalKeyboard.HandleTouchMove | App.jsx:84-101 | re-tunes the anchor voice as Glide.TouchMove says |
| Keyboard.DecimalKeyboard.HandleTouchEnd | App.jsx:103-109 | releases the anchor and clears the session as Glide.TouchEnd says |
| Keyboard.DecimalKeyboard.ScaleDown | App.jsx:119 | sets the scale to Tuning.PrevScale of the old scale, keeping it in [1, 10] |
| Keyboard.DecimalKeyboard.ScaleUp | App.jsx:126 | sets the scale to Tuning.NextScale of the old scale, keeping it in [1, 10] |
| Keyboard.DecimalKeyboard.SelectWaveform | App.jsx:134-143 | sets the waveform used by later presses |
| Keyboard.Tap | App.jsx:74-109 | a touch start then end on a silent key, idle or during a slide, leaves the registry as it was and issues exactly one oscillator start and one release for that tone |

## Left out

- The tuning formula `getFrequency` (App.jsx:19-28): real-exponent powers on floating point are not modelled; it is the parameter `freq`, so the reference pitch (tone 8, scale 5 at 440 Hz) and the octave laws are not proved.
- The Web Audio API (App.jsx:42-44, 48-56, 64-68, 99): the creation of the audio context is the flag `hasContext`; each backend operation (start a voice, re-tune it, ramp it down and stop it) is recorded as one `Registry.Command` with its waveform, frequency, gain, release floor and delay, and the separate Web Audio calls that make it up (creating and connecting the nodes, setting values) are not distinguished; the backend clock (`currentTime`) is not modelled, so scheduled times are offsets from "now".
- DOM event details (`preventDefault`, `touches[0].pageX`, `offsetWidth`): the handlers take the position and the key width as plain reals.
- Glide.TouchMove: requires a key width above zero; a zero-width key, where the division gives an infinite or undefined tone, is not modelled.
- Keyboard.DecimalKeyboard.HandleTouchMove: requires a key width above zero, for the same reason.
- Floating point: tones, positions and frequencies are exact reals, and keys are compared exactly. The rounding to two decimals rounds ties up as toFixed does on an exact value; a decimal tie that is not exactly representable in binary (such as 1.005 at zoom level 200) can round the other way in the program. None of this arises at the offered zoom levels, whose keys are exact.
- The rendering (App.jsx:111-187): the JSX markup, the CSS widths and labels, the zoom selector's state, and React's state and reference machinery, whose values are the fields of `Keyboard.DecimalKeyboard`.
