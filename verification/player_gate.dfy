/** The play/pause button shared, line for line, by components/LargePlayer.tsx
    and components/MiniPlayer.tsx: a lock ref held while the action runs and
    released 600 ms after it settles. Time is milliseconds. */
module PlayerGate {
  import opened Wrappers
  import opened Types
  import Playback

  /** The `isLocked` ref: free, held while the action runs, or held until the
      release timeout fires. */
  datatype Lock = Unlocked | Held | ReleasingAt(time: nat)

  predicate IsLocked(l: Lock, now: nat) {
    match l
    case Unlocked => false
    case Held => true
    case ReleasingAt(t) => now < t
  }

  /** What an accepted press asks of the audio context. */
  datatype Command = NoCommand | PauseCommand | PlayCommand(station: Station)

  /** `handlePlayPause` up to its await: ignored while locked or loading;
      otherwise the lock is taken and the press pauses a playing stream,
      replays the current station, or, with no station, does nothing. */
  function PressPlayPause(l: Lock, pb: PlaybackState, now: nat): (r: (Lock, Command))
    ensures IsLocked(l, now) || pb.isLoading ==> r == (l, NoCommand)
    ensures !IsLocked(l, now) && !pb.isLoading ==> r.0 == Held
    ensures !IsLocked(l, now) && !pb.isLoading && pb.isPlaying ==> r.1 == PauseCommand
    ensures !IsLocked(l, now) && !pb.isLoading && !pb.isPlaying
            ==> r.1 == if pb.currentStation.Some? then PlayCommand(pb.currentStation.value) else NoCommand
  {
    if IsLocked(l, now) || pb.isLoading then (l, NoCommand)
    else if pb.isPlaying then (Held, PauseCommand)
    else if pb.currentStation.Some? then (Held, PlayCommand(pb.currentStation.value))
    else (Held, NoCommand)
  }

  /** The `finally`: the action settled at `now`; the lock frees 600 ms later. */
  function Settled(now: nat): (r: Lock)
    ensures forall t: nat :: IsLocked(r, t) <==> t < now + 600
  {
    ReleasingAt(now + 600)
  }

  /** The awaited call a command makes, each async step succeeding or failing
      as the outcome flags say. */
  function Perform(w: Playback.World, c: Command, pauseOk: bool, unloadOk: bool, loadOk: bool): (r: Playback.World)
    ensures c.NoCommand? ==> r == w
    ensures c.PauseCommand? ==> r == Playback.Pause(w, pauseOk, unloadOk)
    ensures c.PlayCommand? ==> r == Playback.PlayStation(w, c.station, unloadOk, loadOk)
  {
    match c
    case NoCommand => w
    case PauseCommand => Playback.Pause(w, pauseOk, unloadOk)
    case PlayCommand(s) => Playback.PlayStation(w, s, unloadOk, loadOk)
  }

  /** A press that gets through while a stream plays always leaves it paused,
      on the same station, whichever teardown call fails. */
  lemma AcceptedPressWhilePlayingPauses(l: Lock, w: Playback.World, now: nat, pauseOk: bool, unloadOk: bool, loadOk: bool)
    requires !IsLocked(l, now) && !w.state.playbackState.isLoading && w.state.playbackState.isPlaying
    ensures var r := Perform(w, PressPlayPause(l, w.state.playbackState, now).1, pauseOk, unloadOk, loadOk);
            !r.state.playbackState.isPlaying
            && r.state.playbackState.currentStation == w.state.playbackState.currentStation
  {
  }

  /** A press that gets through while paused on a station plays that station
      again; it ends playing iff the load succeeds. */
  lemma AcceptedPressWhilePausedReplays(l: Lock, w: Playback.World, station: Station, now: nat, pauseOk: bool, unloadOk: bool, loadOk: bool)
    requires !IsLocked(l, now) && !w.state.playbackState.isLoading && !w.state.playbackState.isPlaying
    requires w.state.playbackState.currentStation == Some(station)
    ensures var r := Perform(w, PressPlayPause(l, w.state.playbackState, now).1, pauseOk, unloadOk, loadOk);
            r.state.playbackState.currentStation == Some(station)
            && (r.state.playbackState.isPlaying <==> loadOk)
  {
  }

  /** From the accepted press until 600 ms after its action settles, every
      further press is ignored. */
  lemma LockedUntilRelease(pb: PlaybackState, pb2: PlaybackState, accepted: nat, settled: nat, t: nat)
    requires !PressPlayPause(Unlocked, pb, accepted).1.NoCommand?
    ensures PressPlayPause(PressPlayPause(Unlocked, pb, accepted).0, pb2, t) == (Held, NoCommand)
    ensures t < settled + 600 ==> PressPlayPause(Settled(settled), pb2, t).1 == NoCommand
    ensures t >= settled + 600 && !pb2.isLoading ==> PressPlayPause(Settled(settled), pb2, t).0 == Held
  {
  }
}
