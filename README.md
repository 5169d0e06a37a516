# Ambient-sound countdown timer, modelled in Dafny

The widget plays one ambient sound for a chosen number of minutes. A digital
clock counts the time left down as `MM:SS` and playback stops by itself when the
countdown runs out. The whole logic sits in `app.js`. This project models that
logic in two modules:

- `clock.dfy`, module `Clock`: the `MM:SS` text that `setDisplayTime` writes.
  `FormatTime(t)` is the clock text for `t` whole seconds. `Decimal` is
  JavaScript's decimal rendering of a non-negative whole number. `PadPart`
  gives a value below ten its single leading `"0"`. `ParseClock` reads a clock
  text back; it is the partner `FormatTime` is proved against (round trip and
  injectivity). Further lemmas give the exact five-character shape below 100
  minutes and the unpadded, untruncated minutes from 100 minutes on.
- `player.dfy`, module `Player`: the player controller as a class `Player`.
  Its fields stand for the DOM and audio state:
  - `src` and `soundName`;
  - the audio button's `buttonAction` (`"disabled"` or `"toggle-sound"`),
    `buttonText` (`"START"`, `"PAUSE"` or `"RESUME"`) and
    `buttonDisabledClass`;
  - `resetVisible`, the reset button's visibility;
  - `paused` and `currentTime`, the audio element's state;
  - `selectedDuration`, the countdown in seconds (60 at load);
  - `display`, the clock text.

  Each event handler is a method, run to completion: `SelectSound`,
  `ToggleSound`, `ResetSound`, `DisabledClick`, `Click` (the dispatch on the
  clicked element's action, including the default case), `OnTimeUpdate` and
  `ChangeMinutes`. `PlaySound`, `PauseSound` and `SetDisplayTime` are the
  source's helpers. `Valid()` is the invariant all handlers keep:
  - the button action and label take only the values above;
  - the reset button is shown exactly when the action is `"toggle-sound"`;
  - the label is `"PAUSE"` exactly when the audio plays;
  - a disabled button is paused, labelled `"START"` and carries the disabled
    class;
  - the elapsed time never passes the countdown.

  `CurrentPhase()` reads the playback state off the fields: `Disabled`, `Playing`,
  `Paused` (label `RESUME`) or `Stopped` (stopped by the countdown, label
  `START`). `Next` is the state diagram of the controller, and every handler
  is proved to move `CurrentPhase()` as `Next` says.

Assumptions of the model:
- The page's markup is not part of this model. The constructor starts in the
  state a reset leaves: placeholder name, disabled `START` button, reset
  button hidden, paused at 0 s, and the default countdown `"01:00"` on the
  clock. A reset keeps whatever source was loaded, so the empty source the
  constructor starts with is a separate assumption about the markup: the
  audio element has no source until a sound is picked.
- The audio element is an outside collaborator. Its clock is the method
  `AdvancePlayback`: one more second while playing. It assumes the element
  reports progress through `OnTimeUpdate` before the elapsed time passes the
  countdown.

## Model

| member | source | states |
|---|---|---|
| `Clock.Decimal` | app.js:54-57 | the number-to-text conversion in the concatenation and the template: all digits, no leading zero, denotes `n`; one digit exactly below 10, two exactly from 10 to 99 |
| `Clock.PadPart` | app.js:54-55 | a clock part is at least two digits and denotes `n`; below 100 it is exactly the two digits of `n`; from 10 on it is the plain decimal text, so nothing is cut off |
| `Clock.FormatTime` | app.js:51-57 | the clock text is at least five characters with the colon third from the end |
| `Clock.FormatTimeRoundTrip` | app.js:51-57 | reading the clock text back gives the seconds it was made from: minutes × 60 + seconds = `t` |
| `Clock.FormatTimeShortShape` | app.js:51-57 | for `t < 6000` the text is exactly `MM:SS` (5 characters), where MM and SS are the zero-padded digits of `t div 60` and `t mod 60` |
| `Clock.FormatTimeLongShape` | app.js:51-55 | for `t >= 6000` the minutes are the full decimal text of `t div 60` (3 or more digits), not padded and not truncated |
| `Clock.SecondsBelowSixty` | app.js:51-52 | the seconds part always denotes `t mod 60`, so it is below 60, and the minutes part denotes `t div 60` |
| `Clock.FormatTimeInjective` | app.js:51-57 | two different numbers of seconds never give the same clock text |
| `Clock.FormatTimeExamples` | app.js:50-57 | 0 s shows `00:00`, the default 60 s `01:00`, 120 s `02:00`, 599 s `09:59` and 6000 s `100:00` |
| `Player.Player.constructor` | app.js:11 | countdown 60 s at load; the other fields are the state a reset leaves, and the source is empty (both assumed about the markup, see above) |
| `Player.Player.PlaySound` | app.js:25-30 | the audio plays; the button becomes a `"toggle-sound"` labelled `"PAUSE"`; the reset button shows; nothing else changes |
| `Player.Player.PauseSound` | app.js:38-41 | the audio is paused and the button reads `"RESUME"`; nothing else changes |
| `Player.Player.SetDisplayTime` | app.js:50-58 | the display becomes `FormatTime(time)`; only the display changes |
| `Player.Player.DisabledClick` | app.js:89-92 | gives the alert `"Please select a sound to play..."` and changes no state |
| `Player.Player.SelectSound` | app.js:93-98 | `src` and `soundName` come from the payload; the disabled class is cleared; the player plays with action `"toggle-sound"`, label `"PAUSE"` and the reset button shown; the phase becomes `Playing`; the new source restarts the audio at 0 s; countdown and display are kept |
| `Player.Player.ToggleSound` | app.js:100-104 | paused becomes playing with `"PAUSE"`, playing becomes paused with `"RESUME"`; the phase moves as `Next` says; elapsed time, countdown, source, name and display are kept |
| `Player.Player.ResetSound` | app.js:105-115 | from any valid state: paused at 0 s, display `FormatTime(selectedDuration)`, action `"disabled"` with the class set, label `"START"`, reset button hidden, placeholder name; phase `Disabled`; countdown and source kept |
| `Player.Player.Click` | app.js:85-119 | dispatches on the action: `"disabled"` alerts and nothing else; `"select-sound"`, `"toggle-sound"` and `"reset-sound"` each give the full new state of `SelectSound`, `ToggleSound` and `ResetSound`; any other action changes nothing; the countdown is never changed by a click |
| `Player.Player.OnTimeUpdate` | app.js:66-74 | the display shows countdown − elapsed time, taken before any stop; if elapsed + 1 > countdown the player stops at 0 s, paused, labelled `"START"`; otherwise the playback state is kept; the button action is kept either way, so a later click plays again |
| `Player.Player.ChangeMinutes` | app.js:121-126 | elapsed time 0, countdown `m * 60`, display `FormatTime(m * 60)`; paused state, label, action, source and name are kept |
| `Player.Player.AdvancePlayback` | app.js:66-69 | stands for the audio element's clock that the time-update handler reads: one more second while playing, without passing the countdown |
| `Player.ToggleTwice` | app.js:100-104 | from any valid state, two toggles in a row give back the paused state, elapsed time, countdown, display, source and name; a playing or paused player also gets its phase and label back, while a disabled or stopped one ends paused with `"RESUME"` |

## Left out

- DOM lookups and reading the `data-*` attributes (app.js:1-6, app.js:86): the payload arrives as typed method parameters.
- The selector index reset on load (app.js:16): it has no effect on the modelled state.
- The `alert` call itself (app.js:90): `DisabledClick` and `Click` return the alert text instead.
- Real audio playback, media loading, and the `timeupdate` event that the browser fires again when a handler assigns `currentTime` or `src` (app.js:71, 94, 107, 123). Loading a new source is modelled only by its effect on the position: `SelectSound` puts `currentTime` back at 0 s. Each handler runs on its own and to completion. In the browser, the stop at the end of the countdown is followed by a second time update at 0 s, which puts the full countdown back on the clock. The model shows the clock as the first update leaves it.
- Floating-point time: `currentTime` is a whole number of seconds here. The formatter floors both parts, so for a non-negative time nothing is lost.
- Negative remaining time, for which JavaScript would build texts such as `"0-1"`: `Valid()` keeps the elapsed time within the countdown, so `FormatTime` only gets non-negative input.
- The string-to-number conversion in `Number(value * 60)` (app.js:124): `ChangeMinutes` takes the minutes as a whole number.
- Clock.Decimal: JavaScript writes numbers from 10^21 on in exponent form, and is exact only up to 2^53. The model uses the plain decimal form for every whole number.
- CSS and layout: the visual state is the two booleans `buttonDisabledClass` and `resetVisible`.
- A `"toggle-sound"` click while the button is `"disabled"` does not happen in the page, because only the audio button carries that action. The model still handles it as the code does: it plays, but keeps the disabled class. For that reason `Valid()` only states that a disabled action implies the class, not the converse.
