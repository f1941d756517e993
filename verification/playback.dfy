/** The operations of contexts/AudioContext.tsx as transitions of an explicit
    world: the reducer state, the audio engine and the settings/favorites store.
    Every awaited engine or storage call is a discrete step whose outcome is a
    parameter (`…Ok` false: the call rejected). */
module Playback {
  import opened Wrappers
  import opened Types
  import opened Seqs
  import opened AudioReducer
  import opened StorageService

  /** The audio engine: the handles still loaded, each with its volume, and the
      handle the next `createAsync` will return. */
  datatype Engine = Engine(live: map<Sound, real>, next: Sound)

  datatype World = World(state: AudioState, engine: Engine, store: Store)

  /** What a started `playStation` call carries to its completion: the station it
      was called with and the volume it read when it started. */
  datatype Pending = Pending(station: Station, volume: real)

  const InitialEngine: Engine := Engine(map[], 0)
  const InitialWorld: World := World(InitialState, InitialEngine, EmptyStore)

  /** Handles are handed out in increasing order, so a new one is never live. */
  predicate EngineWellFormed(e: Engine) {
    forall h :: h in e.live ==> h < e.next
  }

  /** `unloadAsync`: the handle is released unless the call rejects. */
  function Unload(e: Engine, h: Sound, unloadOk: bool): (r: Engine)
    ensures r.next == e.next
    ensures unloadOk ==> r.live == e.live - {h}
    ensures !unloadOk ==> r == e
  {
    if unloadOk then e.(live := e.live - {h}) else e
  }

  /** `createAsync` resolving: a fresh handle, loaded at the given volume. */
  function Create(e: Engine, volume: real): (r: (Engine, Sound))
    ensures r.1 == e.next && r.0.next == e.next + 1
    ensures r.0.live == e.live[e.next := volume]
  {
    (Engine(e.live[e.next := volume], e.next + 1), e.next)
  }

  /** The first dispatch of `playStation`. */
  const StartPatchFields: PlaybackPatch := NoPlaybackChange.(isPlaying := Some(false), isLoading := Some(true), position := Some(0), duration := Some(0))

  /** `playStation` up to its first await: mark the station loading. The call
      keeps the volume (and, for its teardown, the sound) that the state held
      when it was made. The statistics ping never rejects and changes nothing
      modelled. */
  function PlayBegin(w: World, station: Station): (r: (World, Pending))
    ensures r.0.state.playbackState
         == w.state.playbackState.(isPlaying := false, isLoading := true, currentStation := Some(station), position := 0, duration := 0)
    ensures r.0.state == w.state.(playbackState := r.0.state.playbackState)
    ensures r.0.engine == w.engine && r.0.store == w.store
    ensures r.1 == Pending(station, w.state.playbackState.volume)
  {
    (w.(state := Reduce(w.state, SetPlaybackState(StartPatchFields.(currentStation := Some(Some(station)))))),
     Pending(station, w.state.playbackState.volume))
  }

  /** The teardown inside `playStation` once the stop and unload of the sound
      the call captured have settled (both errors swallowed; a failed stop
      does not release the handle): the handle is released if the unload
      succeeded, and the reference is dropped whichever sound it names now. */
  function Teardown(w: World, h: Sound, unloadOk: bool): (r: World)
    ensures r.state == w.state.(sound := None)
    ensures r.engine == Unload(w.engine, h, unloadOk) && r.store == w.store
    ensures unloadOk ==> h !in r.engine.live
  {
    World(Reduce(w.state, SetSound(None)), Unload(w.engine, h, unloadOk), w.store)
  }

  /** `playStation` up to the `createAsync` call with nothing interleaved: mark
      the station loading and tear down the sound the state holds. */
  function PlayStart(w: World, station: Station, unloadOk: bool): (r: (World, Pending))
    ensures r.0.state.playbackState
         == w.state.playbackState.(isPlaying := false, isLoading := true, currentStation := Some(station), position := 0, duration := 0)
    ensures r.0.state.sound == None
    ensures r.0.state.sleepTimer == w.state.sleepTimer
    ensures r.0.state.favorites == w.state.favorites
    ensures r.0.state.recentlyPlayed == w.state.recentlyPlayed
    ensures r.0.store == w.store
    ensures r.1 == Pending(station, w.state.playbackState.volume)
    ensures r.0.engine.next == w.engine.next
    ensures w.state.sound.Some? && unloadOk ==> r.0.engine.live == w.engine.live - {w.state.sound.value}
    ensures w.state.sound.None? || !unloadOk ==> r.0.engine == w.engine
  {
    var (begun, p) := PlayBegin(w, station);
    match w.state.sound
    case None => (begun, p)
    case Some(h) => (Teardown(begun, h, unloadOk), p)
  }

  /** `playStation` after `createAsync` resolved: playing, not loading, the new
      handle stored, the station recorded in recents. No check that the station
      is still the current one. */
  function PlaySucceed(w: World, p: Pending): (r: World)
    ensures r.state.playbackState
         == w.state.playbackState.(isPlaying := true, isLoading := false, position := 0, duration := 0)
    ensures r.state.sound == Some(w.engine.next)
    ensures r.state.recentlyPlayed == RecordRecent(w.state.recentlyPlayed, p.station)
    ensures r.state.sleepTimer == w.state.sleepTimer && r.state.favorites == w.state.favorites
    ensures r.store == w.store
    ensures r.engine.next == w.engine.next + 1
    ensures r.engine.live == w.engine.live[w.engine.next := p.volume]
    ensures EngineWellFormed(w.engine) ==> EngineWellFormed(r.engine) && w.engine.next !in w.engine.live
  {
    var (engine, sound) := Create(w.engine, p.volume);
    var s1 := Reduce(w.state, SetPlaybackState(NoPlaybackChange.(isPlaying := Some(true), isLoading := Some(false), position := Some(0), duration := Some(0))));
    var s2 := Reduce(s1, SetSound(Some(sound)));
    var s3 := Reduce(s2, AddRecent(p.station));
    World(s3, engine, w.store)
  }

  /** `playStation`'s catch: `createAsync` rejected. The station stays current
      and nothing is recorded. */
  function PlayFail(w: World): (r: World)
    ensures r.state.playbackState == w.state.playbackState.(isPlaying := false, isLoading := false)
    ensures r.state.sound == w.state.sound && r.state.recentlyPlayed == w.state.recentlyPlayed
    ensures r.state.sleepTimer == w.state.sleepTimer && r.state.favorites == w.state.favorites
    ensures r.engine == w.engine && r.store == w.store
  {
    World(Reduce(w.state, SetPlaybackState(NoPlaybackChange.(isPlaying := Some(false), isLoading := Some(false)))), w.engine, w.store)
  }

  /** A whole `playStation` call with nothing interleaved. */
  function PlayStation(w: World, station: Station, unloadOk: bool, loadOk: bool): (r: World)
    ensures r.state.playbackState.currentStation == Some(station)
    ensures !r.state.playbackState.isLoading && r.state.playbackState.isPlaying == loadOk
    ensures r.state.playbackState.volume == w.state.playbackState.volume
    ensures loadOk ==> r.state.sound == Some(w.engine.next) && w.engine.next in r.engine.live && r.engine.live[w.engine.next] == w.state.playbackState.volume
    ensures loadOk ==> r.state.recentlyPlayed == RecordRecent(w.state.recentlyPlayed, station)
    ensures !loadOk ==> r.state.sound == None && r.state.recentlyPlayed == w.state.recentlyPlayed
  {
    var (started, p) := PlayStart(w, station, unloadOk);
    if loadOk then PlaySucceed(started, p) else PlayFail(started)
  }

  /** The flags every path of `pausePlayback` ends by clearing. */
  const PauseFlags: AudioAction := SetPlaybackState(NoPlaybackChange.(isPlaying := Some(false), isLoading := Some(false)))

  /** `pausePlayback` once the awaits on the sound it captured when called
      have settled: the flags are cleared whatever rejects; when pause and
      unload both succeed the captured handle is released and the reference
      dropped, whichever sound it names now. Without a captured sound there
      is no await and only the flags change. */
  function PauseFrom(w: World, captured: Option<Sound>, pauseOk: bool, unloadOk: bool): (r: World)
    ensures r.state.playbackState == w.state.playbackState.(isPlaying := false, isLoading := false)
    ensures r.state.sound == if captured.Some? && pauseOk && unloadOk then None else w.state.sound
    ensures r.state.sleepTimer == w.state.sleepTimer && r.state.favorites == w.state.favorites
    ensures r.state.recentlyPlayed == w.state.recentlyPlayed && r.store == w.store
    ensures r.engine == if captured.Some? && pauseOk then Unload(w.engine, captured.value, unloadOk) else w.engine
  {
    match captured
    case None => w.(state := Reduce(w.state, PauseFlags))
    case Some(h) =>
      if !pauseOk then w.(state := Reduce(w.state, PauseFlags))
      else if !unloadOk then w.(state := Reduce(w.state, PauseFlags))
      else World(Reduce(Reduce(w.state, SetSound(None)), PauseFlags), Unload(w.engine, h, true), w.store)
  }

  /** A whole `pausePlayback` call with nothing interleaved: the station stays,
      and a loaded sound is released exactly when pause and unload succeed. */
  function Pause(w: World, pauseOk: bool, unloadOk: bool): (r: World)
    ensures r.state.playbackState == w.state.playbackState.(isPlaying := false, isLoading := false)
    ensures r.state.sound == if w.state.sound.Some? && pauseOk && unloadOk then None else w.state.sound
    ensures r.state.sleepTimer == w.state.sleepTimer && r.state.favorites == w.state.favorites
    ensures r.state.recentlyPlayed == w.state.recentlyPlayed && r.store == w.store
    ensures r.engine.next == w.engine.next
    ensures w.state.sound.Some? && pauseOk && unloadOk ==> r.engine.live == w.engine.live - {w.state.sound.value}
    ensures w.state.sound.None? || !pauseOk || !unloadOk ==> r.engine == w.engine
  {
    PauseFrom(w, w.state.sound, pauseOk, unloadOk)
  }

  /** The payload of `stopPlayback`'s last dispatch. */
  const StopCleared: AudioAction := SetPlaybackState(NoPlaybackChange.(isPlaying := Some(false), currentStation := Some(None), position := Some(0)))

  /** `stopPlayback` once the awaits on the sound it captured when called have
      settled: with both calls succeeding the captured handle is released,
      the reference dropped and the station cleared, whichever sound and
      station the state names now; a rejected call skips all of it.
      Without a captured sound there is no await and the station is cleared
      at once. `isLoading` is never touched. */
  function StopFrom(w: World, captured: Option<Sound>, stopOk: bool, unloadOk: bool): (r: World)
    ensures var ok := captured.None? || (stopOk && unloadOk);
            && (ok ==> r.state.playbackState
                       == w.state.playbackState.(isPlaying := false, currentStation := None, position := 0))
            && (ok && captured.Some? ==> r.state.sound == None && r.engine == Unload(w.engine, captured.value, true))
            && (captured.None? ==> r.state.sound == w.state.sound && r.engine == w.engine)
            && (!ok ==> r == w)
    ensures r.state.sleepTimer == w.state.sleepTimer && r.state.favorites == w.state.favorites
    ensures r.state.recentlyPlayed == w.state.recentlyPlayed && r.store == w.store
  {
    match captured
    case None => w.(state := Reduce(w.state, StopCleared))
    case Some(h) =>
      if stopOk && unloadOk then World(Reduce(Reduce(w.state, SetSound(None)), StopCleared), Unload(w.engine, h, true), w.store)
      else w
  }

  /** A whole `stopPlayback` call with nothing interleaved: a rejected call
      leaves the world as it was; otherwise nothing stays loaded from the
      state's sound and no station is current. */
  function Stop(w: World, stopOk: bool, unloadOk: bool): (r: World)
    ensures var ok := w.state.sound.None? || (stopOk && unloadOk);
            && (ok ==> r.state.playbackState
                       == w.state.playbackState.(isPlaying := false, currentStation := None, position := 0))
            && (ok ==> r.state.sound == None)
            && (ok && w.state.sound.Some? ==> r.engine.live == w.engine.live - {w.state.sound.value})
            && (ok ==> r.engine.next == w.engine.next)
            && (ok && w.state.sound.None? ==> r.engine == w.engine)
            && (!ok ==> r == w)
    ensures r.state.sleepTimer == w.state.sleepTimer && r.state.favorites == w.state.favorites
    ensures r.state.recentlyPlayed == w.state.recentlyPlayed && r.store == w.store
  {
    StopFrom(w, w.state.sound, stopOk, unloadOk)
  }

  /** `setVolume` up to the state update, once the status and volume calls on
      the sound it captured when called have settled: `None` when one of them
      rejected, which skips the rest of the call; otherwise the handle, if the
      status found it loaded, plays at `v`, and the state holds `v` unclamped.
      An unload landing between the status read and the volume call makes the
      volume call reject, which is the `setOk` false outcome. */
  function VolumeFrom(w: World, captured: Option<Sound>, v: real, statusOk: bool, setOk: bool): (r: Option<World>)
    ensures var aborted := captured.Some? && (!statusOk || (captured.value in w.engine.live && !setOk));
            && (r.None? <==> aborted)
            && (r.Some? ==> r.value.state == w.state.(playbackState := w.state.playbackState.(volume := v)))
            && (r.Some? ==> r.value.store == w.store && r.value.engine.next == w.engine.next)
            && (r.Some? && captured.Some? && captured.value in w.engine.live
                ==> r.value.engine.live == w.engine.live[captured.value := v])
            && (r.Some? && (captured.None? || captured.value !in w.engine.live) ==> r.value.engine == w.engine)
  {
    var engine :=
      match captured
      case None => Some(w.engine)
      case Some(h) =>
        if !statusOk then None
        else if h in w.engine.live then (if setOk then Some(w.engine.(live := w.engine.live[h := v])) else None)
        else Some(w.engine);
    match engine
    case None => None
    case Some(e) => Some(World(Reduce(w.state, SetPlaybackState(NoPlaybackChange.(volume := Some(v)))), e, w.store))
  }

  /** A whole `setVolume` call with nothing interleaved: with a sound, read its
      status and, if it is loaded, set its volume; then store the volume
      unclamped and write it into the settings. A rejected status or volume
      call skips all of that. */
  function SetVolume(w: World, v: real, statusOk: bool, setOk: bool, readOk: bool, writeOk: bool): (r: World)
    ensures var aborted := w.state.sound.Some? && (!statusOk || (w.state.sound.value in w.engine.live && !setOk));
            && (aborted ==> r == w)
            && (!aborted ==> r.state == w.state.(playbackState := w.state.playbackState.(volume := v)))
            && (!aborted ==> r.store == SaveSettings(w.store, GetSettings(w.store, readOk).(volume := v), writeOk))
            && (!aborted && writeOk ==> GetSettings(r.store, true).volume == v)
            && (!aborted && w.state.sound.Some? && w.state.sound.value in w.engine.live
                ==> r.engine.live == w.engine.live[w.state.sound.value := v])
            && (!aborted && (w.state.sound.None? || w.state.sound.value !in w.engine.live) ==> r.engine == w.engine)
    ensures r.engine.next == w.engine.next && r.engine.live.Keys == w.engine.live.Keys
  {
    match VolumeFrom(w, w.state.sound, v, statusOk, setOk)
    case None => w
    case Some(w1) => w1.(store := SaveSettings(w1.store, GetSettings(w1.store, readOk).(volume := v), writeOk))
  }

  /** `setSleepTimer(minutes)`. */
  function SetSleepTimer(s: AudioState, minutes: int): (r: AudioState)
    ensures r.sleepTimer == SleepTimer(true, minutes, minutes * 60)
    ensures r == s.(sleepTimer := r.sleepTimer)
  {
    Reduce(s, AudioReducer.SetSleepTimer(TimerPatch(Some(true), Some(minutes), Some(minutes * 60))))
  }

  /** `cancelSleepTimer`. */
  function CancelSleepTimer(s: AudioState): (r: AudioState)
    ensures r.sleepTimer == SleepTimer(false, 0, 0)
    ensures r == s.(sleepTimer := r.sleepTimer)
  {
    Reduce(s, AudioReducer.SetSleepTimer(TimerPatch(Some(false), Some(0), Some(0))))
  }

  /** The timer after one interval second: the remaining time read from the
      state, minus one. */
  function Decremented(w: World): (r: World)
    ensures r == w.(state := w.state.(sleepTimer := w.state.sleepTimer.(remainingTime := w.state.sleepTimer.remainingTime - 1)))
  {
    w.(state := Reduce(w.state, AudioReducer.SetSleepTimer(TimerPatch(None, None, Some(w.state.sleepTimer.remainingTime - 1)))))
  }

  /** One second of the sleep-timer interval up to its first await. The
      interval runs only while the timer is active with time left: decrement,
      and on the last second call `stopPlayback` without awaiting it (with no
      sound it clears the station at once; with one, its stop and unload
      settle later as a `StopFrom` on that sound) and cancel the timer. */
  function TickStart(w: World): (r: World)
    ensures var t := w.state.sleepTimer;
            && (!(t.isActive && t.remainingTime > 0) ==> r == w)
            && (t.isActive && t.remainingTime > 1 ==> r == Decremented(w))
            && (t.isActive && t.remainingTime == 1
                ==> && r.state.sleepTimer == SleepTimer(false, 0, 0)
                    && r.state.playbackState
                       == (if w.state.sound.None? then w.state.playbackState.(isPlaying := false, currentStation := None, position := 0)
                           else w.state.playbackState)
                    && r.state.sound == w.state.sound
                    && r.state.favorites == w.state.favorites && r.state.recentlyPlayed == w.state.recentlyPlayed
                    && r.engine == w.engine && r.store == w.store)
  {
    var t := w.state.sleepTimer;
    if t.isActive && t.remainingTime > 0 then
      var w1 := Decremented(w);
      if t.remainingTime <= 1 then
        var w2 := if w.state.sound.None? then StopFrom(w1, None, true, true) else w1;
        w2.(state := CancelSleepTimer(w2.state))
      else w1
    else w
  }

  /** One whole second of the interval, the stop it starts settling at once:
      on the last second the world is exactly a whole `stopPlayback` followed
      by `cancelSleepTimer`. */
  function Tick(w: World, stopOk: bool, unloadOk: bool): (r: World)
    ensures var t := w.state.sleepTimer;
            && (!(t.isActive && t.remainingTime > 0) ==> r == w)
            && (t.isActive && t.remainingTime > 1
                ==> r == w.(state := w.state.(sleepTimer := t.(remainingTime := t.remainingTime - 1))))
            && (t.isActive && t.remainingTime == 1
                ==> && r.state == CancelSleepTimer(Stop(w, stopOk, unloadOk).state)
                    && r.engine == Stop(w, stopOk, unloadOk).engine
                    && r.store == w.store)
  {
    var t := w.state.sleepTimer;
    var w1 := TickStart(w);
    if t.isActive && t.remainingTime == 1 && w.state.sound.Some? then StopFrom(w1, w.state.sound, stopOk, unloadOk)
    else w1
  }

  /** `n` interval ticks, every teardown call with the same outcome. */
  function Ticks(w: World, n: nat, stopOk: bool, unloadOk: bool): World
    decreases n
  {
    if n == 0 then w else Ticks(Tick(w, stopOk, unloadOk), n - 1, stopOk, unloadOk)
  }

  /** An active timer with `n` seconds left has, after `n` ticks whose teardown
      succeeds, stopped playback and deactivated itself. */
  lemma {:induction false} SleepTimerExpires(w: World, n: nat)
    requires w.state.sleepTimer.isActive && w.state.sleepTimer.remainingTime == n > 0
    ensures var r := Ticks(w, n, true, true);
            && r.state.sleepTimer == SleepTimer(false, 0, 0)
            && r.state.playbackState.currentStation == None
            && !r.state.playbackState.isPlaying
            && r.state.sound == None
    decreases n
  {
    if n > 1 {
      SleepTimerExpires(Tick(w, true, true), n - 1);
    } else {
      assert Ticks(w, 1, true, true) == Tick(w, true, true);
    }
  }

  /** Starting a one-minute timer and letting sixty seconds pass stops playback. */
  lemma SleepOneMinute(w: World)
    ensures var r := Ticks(w.(state := SetSleepTimer(w.state, 1)), 60, true, true);
            && r.state.playbackState.currentStation == None
            && !r.state.sleepTimer.isActive
  {
    SleepTimerExpires(w.(state := SetSleepTimer(w.state, 1)), 60);
  }

  /** On expiry the timer cancels itself even when stopping the sound fails; the
      station then keeps playing. */
  lemma ExpiryWithFailedStop(w: World)
    requires w.state.sleepTimer.isActive && w.state.sleepTimer.remainingTime == 1
    requires w.state.sound.Some?
    ensures var r := Tick(w, false, true);
            && r.state.sleepTimer == SleepTimer(false, 0, 0)
            && r.state.playbackState == w.state.playbackState
            && r.state.sound == w.state.sound
  {
  }

  /** `loadFavorites`: the favorites read back from storage replace the slice. */
  function LoadFavorites(w: World, readOk: bool): (r: World)
    ensures r == w.(state := w.state.(favorites := GetFavorites(w.store, readOk)))
  {
    w.(state := Reduce(w.state, SetFavorites(GetFavorites(w.store, readOk))))
  }

  /** The context's `isFavorite`: the favorites slice holds the uuid. */
  predicate IsFavorite(s: AudioState, uuid: string) {
    HasUuid(s.favorites, uuid)
  }

  /** After the slice is loaded, the context answers `isFavorite` exactly as
      the storage service would on the same read. */
  lemma LoadedSliceAgreesWithStore(w: World, uuid: string, readOk: bool)
    ensures IsFavorite(LoadFavorites(w, readOk).state, uuid) <==> StorageService.IsFavorite(w.store, uuid, readOk)
    ensures IsFavorite(LoadFavorites(w, readOk).state, uuid)
            <==> readOk && w.store.favorites.Some? && exists f :: f in w.store.favorites.value && f.uuid == uuid
  {
  }

  /** The context's `addToFavorites`: store, then reload the slice. */
  function AddFavorite(w: World, station: Station, readOk: bool, writeOk: bool, reloadOk: bool): (r: World)
    ensures r.store == AddToFavorites(w.store, station, readOk, writeOk)
    ensures r.state == w.state.(favorites := GetFavorites(r.store, reloadOk))
    ensures r.engine == w.engine
  {
    LoadFavorites(w.(store := AddToFavorites(w.store, station, readOk, writeOk)), reloadOk)
  }

  /** The context's `removeFromFavorites`: store, then reload the slice. */
  function RemoveFavorite(w: World, uuid: string, readOk: bool, writeOk: bool, reloadOk: bool): (r: World)
    ensures r.store == RemoveFromFavorites(w.store, uuid, readOk, writeOk)
    ensures r.state == w.state.(favorites := GetFavorites(r.store, reloadOk))
    ensures r.engine == w.engine
  {
    LoadFavorites(w.(store := RemoveFromFavorites(w.store, uuid, readOk, writeOk)), reloadOk)
  }
}
