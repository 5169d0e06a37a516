/**
 * The player controller of the ambient-sound timer: one audio element, one
 * configured countdown, one clock display, an audio button whose action and
 * label follow the playback state, a reset button and the name of the
 * selected sound. Each field of `Player` stands for one piece of that DOM
 * and audio state; each method is one event handler, run to completion.
 */
module Player {

  import opened Clock

  // The `data-action` values the audio button carries.
  const DisabledAction := "disabled"
  const ToggleAction := "toggle-sound"
  // The other click actions the handler recognises.
  const SelectAction := "select-sound"
  const ResetAction := "reset-sound"

  // The labels of the audio button.
  const StartLabel := "START"
  const PauseLabel := "PAUSE"
  const ResumeLabel := "RESUME"

  const Placeholder := "Please select a sound..."
  const DisabledAlert := "Please select a sound to play..."

  /** The countdown before any duration is chosen, in seconds. */
  const DefaultDuration: nat := 60

  /** The playback states of the controller. */
  datatype Phase =
    | Disabled   // no sound selected; the audio button only alerts
    | Playing
    | Paused     // paused by the user; the button offers RESUME
    | Stopped    // stopped by the countdown; the button offers START again

  /** The events that drive the controller. */
  datatype Event = Select | Toggle | Reset | TimeUpdate(expired: bool) | SetDuration

  /** The state diagram of the controller, as a reference for the handlers. */
  function Next(p: Phase, e: Event): Phase
  {
    match e
    case Select => Playing
    case Toggle => if p == Playing then Paused else Playing
    case Reset => Disabled
    case TimeUpdate(expired) => if expired && p != Disabled then Stopped else p
    case SetDuration => p
  }

  class Player {
    var src: string
    var soundName: string
    var buttonAction: string
    var buttonText: string
    var buttonDisabledClass: bool
    var resetVisible: bool
    var paused: bool
    var currentTime: nat
    var selectedDuration: nat
    var display: string

    /** What the handlers keep true between events. */
    ghost predicate Valid()
      reads this
    {
      && (buttonAction == DisabledAction || buttonAction == ToggleAction)
      && (buttonText == StartLabel || buttonText == PauseLabel || buttonText == ResumeLabel)
      && (resetVisible <==> buttonAction == ToggleAction)
      && (buttonText == PauseLabel <==> !paused)
      && (buttonAction == DisabledAction ==> paused && buttonText == StartLabel && buttonDisabledClass)
      && currentTime <= selectedDuration
    }

    /** The playback state the fields show. */
    ghost function CurrentPhase(): Phase
      reads this
    {
      if buttonAction == DisabledAction then Disabled
      else if !paused then Playing
      else if buttonText == ResumeLabel then Paused
      else Stopped
    }

    /**
     * The page as loaded: the state a reset leaves, with the default
     * countdown on the clock. A reset keeps the source; the empty source
     * here is a separate assumption that the markup loads no sound.
     */
    constructor ()
      ensures Valid() && CurrentPhase() == Disabled
      ensures src == "" && soundName == Placeholder
      ensures buttonAction == DisabledAction && buttonText == StartLabel
      ensures buttonDisabledClass && !resetVisible
      ensures paused && currentTime == 0
      ensures selectedDuration == DefaultDuration && display == FormatTime(DefaultDuration)
    {
      src := "";
      soundName := Placeholder;
      buttonAction := DisabledAction;
      buttonText := StartLabel;
      buttonDisabledClass := true;
      resetVisible := false;
      paused := true;
      currentTime := 0;
      selectedDuration := DefaultDuration;
      display := FormatTime(DefaultDuration);
    }

    /** Starts the audio and turns the audio button into a PAUSE toggle. */
    method PlaySound()
      modifies this
      ensures !paused && buttonAction == ToggleAction && buttonText == PauseLabel && resetVisible
      ensures src == old(src) && soundName == old(soundName) && buttonDisabledClass == old(buttonDisabledClass)
      ensures currentTime == old(currentTime) && selectedDuration == old(selectedDuration)
      ensures display == old(display)
    {
      paused := false;
      buttonAction := ToggleAction;
      buttonText := PauseLabel;
      resetVisible := true;
    }

    /** Pauses the audio and labels the audio button RESUME. */
    method PauseSound()
      modifies this
      ensures paused && buttonText == ResumeLabel
      ensures src == old(src) && soundName == old(soundName)
      ensures buttonAction == old(buttonAction) && buttonDisabledClass == old(buttonDisabledClass)
      ensures resetVisible == old(resetVisible)
      ensures currentTime == old(currentTime) && selectedDuration == old(selectedDuration)
      ensures display == old(display)
    {
      paused := true;
      buttonText := ResumeLabel;
    }

    /** Writes `time` seconds on the clock display as minutes and seconds. */
    method SetDisplayTime(time: nat)
      modifies this`display
      ensures display == FormatTime(time)
    {
      var displayMins := Decimal(time / 60);
      var displaySeconds := Decimal(time % 60);
      if time / 60 < 10 {
        displayMins := "0" + displayMins;
      }
      if time % 60 < 10 {
        displaySeconds := "0" + displaySeconds;
      }
      display := displayMins + ":" + displaySeconds;
    }

    /** The alert of a click on the disabled audio button; nothing changes. */
    method DisabledClick() returns (alert: string)
      ensures alert == DisabledAlert
    {
      alert := DisabledAlert;
    }

    /**
     * A sound was picked: load it, show its name, enable and start the
     * player. Assigning a new source makes the audio element load it, which
     * puts its playback position back at 0 s, so the countdown starts over.
     */
    method SelectSound(source: string, name: string)
      requires Valid()
      modifies this
      ensures Valid() && CurrentPhase() == Next(old(CurrentPhase()), Select) == Playing
      ensures src == source && soundName == name
      ensures !buttonDisabledClass && buttonAction == ToggleAction && buttonText == PauseLabel
      ensures resetVisible && !paused
      ensures currentTime == 0 && selectedDuration == old(selectedDuration)
      ensures display == old(display)
    {
      src := source;
      currentTime := 0;
      soundName := name;
      buttonDisabledClass := false;
      PlaySound();
    }

    /** The audio button in its toggle role: play when paused, pause when playing. */
    method ToggleSound()
      requires Valid()
      modifies this
      ensures Valid() && CurrentPhase() == Next(old(CurrentPhase()), Toggle)
      ensures paused == !old(paused)
      ensures buttonText == if old(paused) then PauseLabel else ResumeLabel
      ensures buttonAction == ToggleAction && resetVisible
      ensures src == old(src) && soundName == old(soundName) && buttonDisabledClass == old(buttonDisabledClass)
      ensures currentTime == old(currentTime) && selectedDuration == old(selectedDuration)
      ensures display == old(display)
    {
      if paused {
        PlaySound();
      } else {
        PauseSound();
      }
    }

    /**
     * Back to the initial state from anywhere: paused at the start, the full
     * countdown on the clock, the audio button disabled, the reset button
     * hidden and the placeholder name shown. The countdown and the audio
     * source are kept.
     */
    method ResetSound()
      requires Valid()
      modifies this
      ensures Valid() && CurrentPhase() == Next(old(CurrentPhase()), Reset) == Disabled
      ensures paused && currentTime == 0
      ensures display == FormatTime(selectedDuration)
      ensures buttonDisabledClass && buttonAction == DisabledAction && buttonText == StartLabel
      ensures !resetVisible && soundName == Placeholder
      ensures selectedDuration == old(selectedDuration) && src == old(src)
    {
      PauseSound();
      currentTime := 0;
      SetDisplayTime(selectedDuration);
      buttonDisabledClass := true;
      buttonAction := DisabledAction;
      buttonText := StartLabel;
      resetVisible := false;
      soundName := Placeholder;
    }

    /**
     * The click handler: dispatches on the `data-action` of the clicked
     * element. Only the disabled audio button yields an alert; an action the
     * handler does not know changes nothing.
     */
    method Click(action: string, name: string, source: string) returns (alert: Option<string>)
      requires Valid()
      modifies this
      ensures Valid()
      ensures alert == if action == DisabledAction then Some(DisabledAlert) else None
      ensures action == SelectAction ==>
                CurrentPhase() == Playing && src == source && soundName == name
                && !buttonDisabledClass && buttonAction == ToggleAction && buttonText == PauseLabel
                && resetVisible && !paused && currentTime == 0 && display == old(display)
      ensures action == ToggleAction ==>
                CurrentPhase() == Next(old(CurrentPhase()), Toggle) && paused == !old(paused)
                && buttonText == (if old(paused) then PauseLabel else ResumeLabel)
                && buttonAction == ToggleAction && resetVisible
                && src == old(src) && soundName == old(soundName) && buttonDisabledClass == old(buttonDisabledClass)
                && currentTime == old(currentTime) && display == old(display)
      ensures action == ResetAction ==>
                CurrentPhase() == Disabled && paused && currentTime == 0
                && display == FormatTime(selectedDuration)
                && buttonDisabledClass && buttonAction == DisabledAction && buttonText == StartLabel
                && !resetVisible && soundName == Placeholder && src == old(src)
      ensures action !in {SelectAction, ToggleAction, ResetAction} ==>
                src == old(src) && soundName == old(soundName) && buttonAction == old(buttonAction)
                && buttonText == old(buttonText) && buttonDisabledClass == old(buttonDisabledClass)
                && resetVisible == old(resetVisible) && paused == old(paused)
                && currentTime == old(currentTime) && display == old(display)
      ensures selectedDuration == old(selectedDuration)
    {
      alert := None;
      if action == DisabledAction {
        var message := DisabledClick();
        alert := Some(message);
      } else if action == SelectAction {
        SelectSound(source, name);
      } else if action == ToggleAction {
        ToggleSound();
      } else if action == ResetAction {
        ResetSound();
      }
    }

    /**
     * The audio element reported progress: show what is left of the
     * countdown, computed from the elapsed time as it is on entry; once less
     * than one second would be left, stop at the start with the label START.
     * The button's action is kept, so a later click resumes play.
     */
    method OnTimeUpdate()
      requires Valid()
      modifies this
      ensures Valid()
      ensures CurrentPhase() == Next(old(CurrentPhase()), TimeUpdate(old(currentTime) + 1 > old(selectedDuration)))
      ensures display == FormatTime(old(selectedDuration) - old(currentTime))
      ensures old(currentTime) + 1 > old(selectedDuration) ==>
                paused && currentTime == 0 && buttonText == StartLabel
      ensures old(currentTime) + 1 <= old(selectedDuration) ==>
                paused == old(paused) && currentTime == old(currentTime) && buttonText == old(buttonText)
      ensures buttonAction == old(buttonAction) && buttonDisabledClass == old(buttonDisabledClass)
      ensures resetVisible == old(resetVisible)
      ensures src == old(src) && soundName == old(soundName) && selectedDuration == old(selectedDuration)
    {
      SetDisplayTime(selectedDuration - currentTime);
      if currentTime + 1 > selectedDuration {
        paused := true;
        currentTime := 0;
        buttonText := StartLabel;
      }
    }

    /**
     * A new countdown of `minutes` was chosen: rewind the audio, store the
     * countdown in seconds and show it in full. Playback goes on as it was.
     */
    method ChangeMinutes(minutes: nat)
      requires Valid()
      modifies this
      ensures Valid() && CurrentPhase() == Next(old(CurrentPhase()), SetDuration)
      ensures currentTime == 0 && selectedDuration == minutes * 60
      ensures display == FormatTime(minutes * 60)
      ensures paused == old(paused) && buttonText == old(buttonText) && buttonAction == old(buttonAction)
      ensures buttonDisabledClass == old(buttonDisabledClass) && resetVisible == old(resetVisible)
      ensures src == old(src) && soundName == old(soundName)
    {
      currentTime := 0;
      selectedDuration := minutes * 60;
      SetDisplayTime(selectedDuration);
    }

    /**
     * The audio element's own clock: while playing, one more second is
     * played. The element reports it through `OnTimeUpdate` before the
     * elapsed time can pass the countdown.
     */
    method AdvancePlayback()
      requires Valid() && !paused && currentTime < selectedDuration
      modifies this`currentTime
      ensures Valid() && CurrentPhase() == old(CurrentPhase())
      ensures currentTime == old(currentTime) + 1
    {
      currentTime := currentTime + 1;
    }
  }

  /**
   * Two clicks on the toggle in a row give back whether the audio plays,
   * and keep the elapsed time, countdown, display, source and name. A
   * player that was playing or paused also gets its label back; one that
   * was disabled or stopped by the countdown ends up paused, labelled
   * RESUME.
   */
  method ToggleTwice(p: Player)
    requires p.Valid()
    modifies p
    ensures p.Valid()
    ensures p.paused == old(p.paused)
    ensures p.currentTime == old(p.currentTime) && p.selectedDuration == old(p.selectedDuration)
    ensures p.display == old(p.display) && p.src == old(p.src) && p.soundName == old(p.soundName)
    ensures old(p.CurrentPhase()) in {Playing, Paused} ==>
              p.CurrentPhase() == old(p.CurrentPhase()) && p.buttonText == old(p.buttonText)
    ensures old(p.CurrentPhase()) in {Disabled, Stopped} ==>
              p.CurrentPhase() == Paused && p.buttonText == ResumeLabel
  {
    p.ToggleSound();
    p.ToggleSound();
  }
}
