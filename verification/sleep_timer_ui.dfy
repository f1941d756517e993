/** The two sleep-timer screens: screens/SleepTimerScreen.tsx (quick options
    and the custom-timer button, both disabled while a timer runs) and
    components/SleepTimerModal.tsx (a longer option list that closes after
    acting). */
module SleepTimerUi {
  import opened Wrappers
  import opened Types
  import opened AudioReducer
  import Playback
  import TimeFormat

  const QuickOptions: seq<nat> := [5, 10, 15, 30, 45, 60]

  const ModalOptions: seq<nat> := [5, 10, 15, 30, 45, 60, 90, 120]

  /** Every quick option is also offered by the modal, which adds the longer
      90 and 120 minute choices. */
  lemma OptionsNest()
    ensures forall m :: m in QuickOptions ==> m in ModalOptions
    ensures forall m :: m in ModalOptions && m !in QuickOptions <==> m == 90 || m == 120
  {
  }

  /** A quick option or the custom-timer button reacts only while no timer
      runs. */
  predicate ScreenControlsEnabled(timer: SleepTimer) {
    !timer.isActive
  }

  /** Tapping a quick option: a disabled one does nothing; otherwise the
      timer is set to its minutes. */
  function QuickOptionPress(s: AudioState, i: nat): (r: AudioState)
    requires i < |QuickOptions|
    ensures s.sleepTimer.isActive ==> r == s
    ensures !s.sleepTimer.isActive ==> r.sleepTimer == SleepTimer(true, QuickOptions[i], QuickOptions[i] * 60)
    ensures r == s.(sleepTimer := r.sleepTimer)
  {
    if !ScreenControlsEnabled(s.sleepTimer) then s else Playback.SetSleepTimer(s, QuickOptions[i])
  }

  /** The custom-timer button opens the modal only when enabled. */
  function CustomButtonPress(timer: SleepTimer, modalOpen: bool): (r: bool)
    ensures timer.isActive ==> r == modalOpen
    ensures !timer.isActive ==> r
  {
    if ScreenControlsEnabled(timer) then true else modalOpen
  }

  /** Choosing a modal option sets the timer to it and closes the modal (the
      result's flag is whether the modal is still open). Modal options are
      not disabled while a timer runs: choosing one restarts it. */
  function ModalChoose(s: AudioState, i: nat): (r: (AudioState, bool))
    requires i < |ModalOptions|
    ensures r.0.sleepTimer == SleepTimer(true, ModalOptions[i], ModalOptions[i] * 60)
    ensures r.0 == s.(sleepTimer := r.0.sleepTimer)
    ensures !r.1
  {
    (Playback.SetSleepTimer(s, ModalOptions[i]), false)
  }

  /** The cancel button cancels the timer, then closes the modal. */
  function ModalCancel(s: AudioState): (r: (AudioState, bool))
    ensures r.0.sleepTimer == SleepTimer(false, 0, 0)
    ensures r.0 == s.(sleepTimer := r.0.sleepTimer)
    ensures !r.1
  {
    (Playback.CancelSleepTimer(s), false)
  }

  /** The status block with the remaining time shows only while a timer is
      active, as M:SS with unwrapped minutes. Remaining time is never negative
      in a reachable state (`Session.TimerWellFormed`). */
  function ModalStatus(timer: SleepTimer): (r: Option<string>)
    requires timer.remainingTime >= 0
    ensures r.Some? <==> timer.isActive
    ensures r.Some? ==> TimeFormat.MinSecShape(r.value) && TimeFormat.ParseMinSec(r.value) == timer.remainingTime
  {
    if timer.isActive then
      TimeFormat.MinSecRoundTrip(timer.remainingTime);
      Some(TimeFormat.FormatMinSec(timer.remainingTime))
    else None
  }

  /** The screen's status card shows the remaining time as H:MM:SS or M:SS
      while a timer is active, and the set-a-timer card otherwise. */
  function ScreenStatus(timer: SleepTimer): (r: Option<string>)
    requires timer.remainingTime >= 0
    ensures r.Some? <==> timer.isActive
    ensures r.Some? ==> (TimeFormat.ClockShape(r.value) || TimeFormat.MinSecShape(r.value))
                        && TimeFormat.ParseClock(r.value) == timer.remainingTime
  {
    if timer.isActive then
      TimeFormat.ClockRoundTrip(timer.remainingTime);
      Some(TimeFormat.FormatClock(timer.remainingTime))
    else None
  }

  /** A timer set from the modal reads back, right away, as its full length. */
  lemma ModalShowsChosenLength(s: AudioState, i: nat)
    requires i < |ModalOptions|
    ensures var (r, _) := ModalChoose(s, i);
            ModalStatus(r.sleepTimer).Some?
            && TimeFormat.ParseMinSec(ModalStatus(r.sleepTimer).value) == ModalOptions[i] * 60
  {
  }
}
