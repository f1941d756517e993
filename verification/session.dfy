/** Traces of the audio context: every interleaving of the steps between the
    awaits of its operations, the invariants all of them keep, whole calls as
    traces of their own steps, and what the missing station-id guard and the
    captured sound of a stale call allow. */
module Session {
  import opened Wrappers
  import opened Types
  import opened AudioReducer
  import opened StorageService
  import opened Playback

  /** One step of some operation: the synchronous part of a call up to its
      first await, or the continuation that runs when an await settles, up to
      the next one. A continuation carries what the call captured when it was
      made (the sound, the pending play, the value a storage read returned);
      traces may run continuations in any order, with any captured value, or
      never. Awaits whose settling changes nothing modelled (`stopAsync`,
      `pauseAsync`, `getStatusAsync`, a storage read) share the step of the
      await that follows them. */
  datatype Event =
    | PlayBeginEv(station: Station)
    | TeardownEv(handle: Sound, unloadOk: bool)
    | PlaySucceedEv(pending: Pending)
    | PlayFailEv
    | PauseEv(captured: Option<Sound>, pauseOk: bool, unloadOk: bool)
    | StopEv(captured: Option<Sound>, stopOk: bool, unloadOk: bool)
    | VolumeEv(captured: Option<Sound>, v: real, statusOk: bool, setOk: bool)
    | SettingsWriteEv(settings: AppSettings, writeOk: bool)
    | SetTimerEv(minutes: int)
    | CancelTimerEv
    | TickEv
    | FavoritesReadEv(readOk: bool)
    | FavoritesWriteEv(favorites: seq<Station>, writeOk: bool)

  /** `setItem` of the favorites key with a list computed from an earlier read. */
  function WriteFavorites(st: Store, favorites: seq<Station>, writeOk: bool): (r: Store)
    ensures r.settings == st.settings
    ensures writeOk ==> GetFavorites(r, true) == favorites
    ensures !writeOk ==> r == st
  {
    if writeOk then st.(favorites := Some(favorites)) else st
  }

  function Step(w: World, e: Event): World {
    match e
    case PlayBeginEv(station) => PlayBegin(w, station).0
    case TeardownEv(h, unloadOk) => Teardown(w, h, unloadOk)
    case PlaySucceedEv(p) => PlaySucceed(w, p)
    case PlayFailEv => PlayFail(w)
    case PauseEv(captured, pauseOk, unloadOk) => PauseFrom(w, captured, pauseOk, unloadOk)
    case StopEv(captured, stopOk, unloadOk) => StopFrom(w, captured, stopOk, unloadOk)
    case VolumeEv(captured, v, statusOk, setOk) =>
      (match VolumeFrom(w, captured, v, statusOk, setOk) case None => w case Some(w1) => w1)
    case SettingsWriteEv(settings, writeOk) => w.(store := SaveSettings(w.store, settings, writeOk))
    case SetTimerEv(minutes) => w.(state := Playback.SetSleepTimer(w.state, minutes))
    case CancelTimerEv => w.(state := CancelSleepTimer(w.state))
    case TickEv => TickStart(w)
    case FavoritesReadEv(readOk) => LoadFavorites(w, readOk)
    case FavoritesWriteEv(favorites, writeOk) => w.(store := WriteFavorites(w.store, favorites, writeOk))
  }

  function Run(w: World, es: seq<Event>): World
    decreases |es|
  {
    if es == [] then w else Run(Step(w, es[0]), es[1..])
  }

  /** Timer options are positive minute counts in every caller. */
  predicate PositiveTimers(es: seq<Event>) {
    forall i :: 0 <= i < |es| && es[i].SetTimerEv? ==> es[i].minutes > 0
  }

  /** A timer is either off and zeroed, or on with time left within its duration. */
  predicate TimerWellFormed(t: SleepTimer) {
    && (!t.isActive ==> t.remainingTime == 0 && t.duration == 0)
    && (t.isActive ==> 0 < t.remainingTime <= t.duration * 60)
  }

  /** What holds in every state the context can reach. */
  predicate Invariant(w: World) {
    && !(w.state.playbackState.isPlaying && w.state.playbackState.isLoading)
    && RecentsWellFormed(w.state.recentlyPlayed)
    && TimerWellFormed(w.state.sleepTimer)
    && EngineWellFormed(w.engine)
    && (w.state.sound.Some? ==> w.state.sound.value in w.engine.live)
  }

  /** Every step keeps the invariant, whatever it captured and however it
      interleaves with others. */
  lemma StepKeepsInvariant(w: World, e: Event)
    requires Invariant(w)
    requires e.SetTimerEv? ==> e.minutes > 0
    ensures Invariant(Step(w, e))
  {
    match e
    case PlaySucceedEv(p) =>
      RecordRecentWellFormed(w.state.recentlyPlayed, p.station);
    case _ =>
  }

  /** Every trace from the initial world keeps the invariant: never playing and
      loading at once, recents bounded and unique, the timer consistent, and the
      stored sound still loaded. */
  lemma {:induction false} RunKeepsInvariant(w: World, es: seq<Event>)
    requires Invariant(w) && PositiveTimers(es)
    ensures Invariant(Run(w, es))
    decreases |es|
  {
    if es != [] {
      StepKeepsInvariant(w, es[0]);
      assert PositiveTimers(es[1..]) by {
        forall i | 0 <= i < |es[1..]| && es[1..][i].SetTimerEv? ensures es[1..][i].minutes > 0 {
          assert es[1..][i] == es[i + 1];
        }
      }
      RunKeepsInvariant(Step(w, es[0]), es[1..]);
    }
  }

  lemma ReachableInvariant(es: seq<Event>)
    requires PositiveTimers(es)
    ensures Invariant(Run(InitialWorld, es))
  {
    RunKeepsInvariant(InitialWorld, es);
  }

  /** Every loaded handle is the one the state refers to. */
  predicate SingleStream(w: World) {
    forall h :: h in w.engine.live ==> w.state.sound == Some(h)
  }

  /** A whole call of the context with nothing interleaved. */
  datatype Call =
    | PlayCall(station: Station, unloadOk: bool, loadOk: bool)
    | PauseCall(pauseOk: bool, unloadOk: bool)
    | StopCall(stopOk: bool, unloadOk: bool)
    | VolumeCall(v: real, statusOk: bool, setOk: bool, readOk: bool, writeOk: bool)
    | SetTimerCall(minutes: int)
    | CancelTimerCall
    | TickCall(stopOk: bool, unloadOk: bool)
    | LoadFavoritesCall(readOk: bool)
    | AddFavoriteCall(station: Station, readOk: bool, writeOk: bool, reloadOk: bool)
    | RemoveFavoriteCall(uuid: string, readOk: bool, writeOk: bool, reloadOk: bool)

  function Apply(w: World, c: Call): World {
    match c
    case PlayCall(station, unloadOk, loadOk) => PlayStation(w, station, unloadOk, loadOk)
    case PauseCall(pauseOk, unloadOk) => Pause(w, pauseOk, unloadOk)
    case StopCall(stopOk, unloadOk) => Stop(w, stopOk, unloadOk)
    case VolumeCall(v, statusOk, setOk, readOk, writeOk) => SetVolume(w, v, statusOk, setOk, readOk, writeOk)
    case SetTimerCall(minutes) => w.(state := Playback.SetSleepTimer(w.state, minutes))
    case CancelTimerCall => w.(state := CancelSleepTimer(w.state))
    case TickCall(stopOk, unloadOk) => Tick(w, stopOk, unloadOk)
    case LoadFavoritesCall(readOk) => LoadFavorites(w, readOk)
    case AddFavoriteCall(station, readOk, writeOk, reloadOk) => AddFavorite(w, station, readOk, writeOk, reloadOk)
    case RemoveFavoriteCall(uuid, readOk, writeOk, reloadOk) => RemoveFavorite(w, uuid, readOk, writeOk, reloadOk)
  }

  /** The steps a whole call takes when nothing runs between them. */
  function Steps(w: World, c: Call): seq<Event> {
    match c
    case PlayCall(station, unloadOk, loadOk) =>
      [PlayBeginEv(station)]
      + (if w.state.sound.Some? then [TeardownEv(w.state.sound.value, unloadOk)] else [])
      + [if loadOk then PlaySucceedEv(Pending(station, w.state.playbackState.volume)) else PlayFailEv]
    case PauseCall(pauseOk, unloadOk) => [PauseEv(w.state.sound, pauseOk, unloadOk)]
    case StopCall(stopOk, unloadOk) => [StopEv(w.state.sound, stopOk, unloadOk)]
    case VolumeCall(v, statusOk, setOk, readOk, writeOk) =>
      [VolumeEv(w.state.sound, v, statusOk, setOk)]
      + (if VolumeFrom(w, w.state.sound, v, statusOk, setOk).Some?
         then [SettingsWriteEv(GetSettings(w.store, readOk).(volume := v), writeOk)] else [])
    case SetTimerCall(minutes) => [SetTimerEv(minutes)]
    case CancelTimerCall => [CancelTimerEv]
    case TickCall(stopOk, unloadOk) =>
      [TickEv]
      + (if w.state.sleepTimer.isActive && w.state.sleepTimer.remainingTime == 1 && w.state.sound.Some?
         then [StopEv(w.state.sound, stopOk, unloadOk)] else [])
    case LoadFavoritesCall(readOk) => [FavoritesReadEv(readOk)]
    case AddFavoriteCall(station, readOk, writeOk, reloadOk) =>
      var favorites := GetFavorites(w.store, readOk);
      (if HasUuid(favorites, station.uuid) then [] else [FavoritesWriteEv(favorites + [station], writeOk)])
      + [FavoritesReadEv(reloadOk)]
    case RemoveFavoriteCall(uuid, readOk, writeOk, reloadOk) =>
      [FavoritesWriteEv(Without(GetFavorites(w.store, readOk), uuid), writeOk), FavoritesReadEv(reloadOk)]
  }

  lemma RunOne(w: World, a: Event)
    ensures Run(w, [a]) == Step(w, a)
  {
    assert [a][1..] == [];
  }

  lemma RunTwo(w: World, a: Event, b: Event)
    ensures Run(w, [a, b]) == Step(Step(w, a), b)
  {
    assert [a, b][1..] == [b];
    RunOne(Step(w, a), b);
  }

  lemma RunThree(w: World, a: Event, b: Event, c: Event)
    ensures Run(w, [a, b, c]) == Step(Step(Step(w, a), b), c)
  {
    assert [a, b, c][1..] == [b, c];
    RunTwo(Step(w, a), b, c);
  }

  lemma PlayIsTrace(w: World, station: Station, unloadOk: bool, loadOk: bool)
    ensures Run(w, Steps(w, PlayCall(station, unloadOk, loadOk))) == PlayStation(w, station, unloadOk, loadOk)
  {
    var c := PlayCall(station, unloadOk, loadOk);
    var last := if loadOk then PlaySucceedEv(Pending(station, w.state.playbackState.volume)) else PlayFailEv;
    if w.state.sound.Some? {
      assert Steps(w, c) == [PlayBeginEv(station), TeardownEv(w.state.sound.value, unloadOk), last];
      RunThree(w, PlayBeginEv(station), TeardownEv(w.state.sound.value, unloadOk), last);
    } else {
      assert Steps(w, c) == [PlayBeginEv(station), last];
      RunTwo(w, PlayBeginEv(station), last);
    }
  }

  lemma VolumeIsTrace(w: World, v: real, statusOk: bool, setOk: bool, readOk: bool, writeOk: bool)
    ensures Run(w, Steps(w, VolumeCall(v, statusOk, setOk, readOk, writeOk))) == SetVolume(w, v, statusOk, setOk, readOk, writeOk)
  {
    var first := VolumeEv(w.state.sound, v, statusOk, setOk);
    if VolumeFrom(w, w.state.sound, v, statusOk, setOk).Some? {
      RunTwo(w, first, SettingsWriteEv(GetSettings(w.store, readOk).(volume := v), writeOk));
    } else {
      RunOne(w, first);
    }
  }

  lemma TickIsTrace(w: World, stopOk: bool, unloadOk: bool)
    ensures Run(w, Steps(w, TickCall(stopOk, unloadOk))) == Tick(w, stopOk, unloadOk)
  {
    if w.state.sleepTimer.isActive && w.state.sleepTimer.remainingTime == 1 && w.state.sound.Some? {
      RunTwo(w, TickEv, StopEv(w.state.sound, stopOk, unloadOk));
    } else {
      RunOne(w, TickEv);
    }
  }

  lemma AddFavoriteIsTrace(w: World, station: Station, readOk: bool, writeOk: bool, reloadOk: bool)
    ensures Run(w, Steps(w, AddFavoriteCall(station, readOk, writeOk, reloadOk))) == AddFavorite(w, station, readOk, writeOk, reloadOk)
  {
    var favorites := GetFavorites(w.store, readOk);
    if HasUuid(favorites, station.uuid) {
      assert Steps(w, AddFavoriteCall(station, readOk, writeOk, reloadOk)) == [FavoritesReadEv(reloadOk)];
      RunOne(w, FavoritesReadEv(reloadOk));
    } else {
      assert Steps(w, AddFavoriteCall(station, readOk, writeOk, reloadOk))
          == [FavoritesWriteEv(favorites + [station], writeOk), FavoritesReadEv(reloadOk)];
      RunTwo(w, FavoritesWriteEv(favorites + [station], writeOk), FavoritesReadEv(reloadOk));
    }
  }

  /** Each whole call is a trace of its own steps, so everything proved about
      traces holds for calls too. */
  lemma CallIsTrace(w: World, c: Call)
    ensures Run(w, Steps(w, c)) == Apply(w, c)
  {
    match c
    case PlayCall(station, unloadOk, loadOk) => PlayIsTrace(w, station, unloadOk, loadOk);
    case VolumeCall(v, statusOk, setOk, readOk, writeOk) => VolumeIsTrace(w, v, statusOk, setOk, readOk, writeOk);
    case TickCall(stopOk, unloadOk) => TickIsTrace(w, stopOk, unloadOk);
    case AddFavoriteCall(station, readOk, writeOk, reloadOk) => AddFavoriteIsTrace(w, station, readOk, writeOk, reloadOk);
    case RemoveFavoriteCall(uuid, readOk, writeOk, reloadOk) =>
      RunTwo(w, FavoritesWriteEv(Without(GetFavorites(w.store, readOk), uuid), writeOk), FavoritesReadEv(reloadOk));
    case _ => RunOne(w, Steps(w, c)[0]);
  }

  /** Calls that do not overlap keep at most one stream loaded, as long as no
      `playStation` fails to unload the previous sound. */
  lemma CallKeepsSingleStream(w: World, c: Call)
    requires SingleStream(w) && EngineWellFormed(w.engine)
    requires c.PlayCall? ==> c.unloadOk
    ensures SingleStream(Apply(w, c)) && EngineWellFormed(Apply(w, c).engine)
  {
    match c
    case PlayCall(station, unloadOk, loadOk) =>
      var (started, p) := PlayStart(w, station, unloadOk);
      assert started.engine.live == map[];
    case _ =>
  }

  /** A world playing station `x` on handle 0, from a whole call. */
  function PlayingX(x: Station): (r: World)
    ensures r.state.sound == Some(0) && r.engine.live.Keys == {0} && r.engine.next == 1
    ensures r.state.playbackState.isPlaying && r.state.playbackState.currentStation == Some(x)
  {
    PlayStation(InitialWorld, x, true, true)
  }

  /** The teardown of an earlier play that settles after a newer play has
      loaded drops the newer handle: the state says playing with no sound.
      A pause then has nothing to stop, and the newer stream stays loaded
      with nothing referring to it, out of reach of every later call. */
  lemma StaleTeardownOrphansNewerStream(x: Station, a: Station, b: Station)
    ensures var w0 := PlayingX(x);
            var (wa, pa) := PlayBegin(w0, a);
            var (wb, pb) := PlayBegin(wa, b);
            var wd := PlaySucceed(Teardown(wb, 0, true), pb);
            var we := Teardown(wd, 0, true);
            var wf := PauseFrom(we, we.state.sound, true, true);
            && we.state.playbackState.isPlaying && we.state.sound == None
            && !wf.state.playbackState.isPlaying
            && wf.engine.live.Keys == {1} && wf.state.sound == None
            && !SingleStream(wf)
  {
  }

  /** A stop called while station `x` played, whose calls settle after a newer
      play has loaded: it clears the newer station and drops its handle,
      while that stream stays loaded. */
  lemma StaleStopOrphansNewerStream(x: Station, b: Station)
    ensures var w0 := PlayingX(x);
            var (wb, pb) := PlayBegin(w0, b);
            var wd := PlaySucceed(Teardown(wb, 0, true), pb);
            var we := StopFrom(wd, w0.state.sound, true, true);
            && wd.state.playbackState.currentStation == Some(b) && wd.state.sound == Some(1)
            && we.state.playbackState.currentStation == None && we.state.sound == None
            && we.engine.live.Keys == {1}
            && !SingleStream(we)
  {
  }

  /** Two overlapping plays both complete: both streams stay loaded, the first
      is referenced by nothing, and recents lists both stations. */
  lemma OverlappingPlaysOrphanAStream(a: Station, b: Station)
    requires a.uuid != b.uuid
    ensures var (w1, pa) := PlayStart(InitialWorld, a, true);
            var (w2, pb) := PlayStart(w1, b, true);
            var w4 := PlaySucceed(PlaySucceed(w2, pa), pb);
            && w4.engine.live.Keys == {0, 1}
            && w4.state.sound == Some(1)
            && !SingleStream(w4)
            && w4.state.playbackState.currentStation == Some(b)
  {
  }

  /** A late completion of an abandoned play overwrites the newer play's
      failure: the state says playing while the station shown is the one that
      failed, and recents records the other one. */
  lemma LateLoadOverwritesNewerFailure(a: Station, b: Station)
    requires a.uuid != b.uuid
    ensures var (w1, pa) := PlayStart(InitialWorld, a, true);
            var (w2, pb) := PlayStart(w1, b, true);
            var w4 := PlaySucceed(PlayFail(w2), pa);
            && w4.state.playbackState.isPlaying
            && w4.state.playbackState.currentStation == Some(b)
            && w4.state.recentlyPlayed == [a]
  {
    var (w1, pa) := PlayStart(InitialWorld, a, true);
    var (w2, pb) := PlayStart(w1, b, true);
    assert RecordRecent([], a) == [a];
  }

  /** Stopping while a play is loading leaves `isLoading` set with no station;
      the load then completing marks playing with no station. */
  lemma StopDuringLoad(a: Station)
    ensures var (w1, pa) := PlayStart(InitialWorld, a, true);
            var w2 := Stop(w1, true, true);
            var w3 := PlaySucceed(w2, pa);
            && w2.state.playbackState.currentStation == None && w2.state.playbackState.isLoading
            && w3.state.playbackState.currentStation == None && w3.state.playbackState.isPlaying
  {
  }

  /** A failed unload during `playStation` leaves the old stream loaded next to
      the new one. */
  lemma FailedUnloadOrphansStream(w: World, station: Station)
    requires w.state.sound.Some? && EngineWellFormed(w.engine)
    requires w.state.sound.value in w.engine.live
    ensures var r := PlayStation(w, station, false, true);
            && w.state.sound.value in r.engine.live
            && w.engine.next in r.engine.live
            && !SingleStream(r)
  {
  }

  /** Play, pause, play again: the second play loads a fresh handle instead of
      resuming, and ends playing the same station. */
  lemma PlayPausePlay(w: World, x: Station)
    requires EngineWellFormed(w.engine)
    ensures var w1 := PlayStation(w, x, true, true);
            var w2 := Pause(w1, true, true);
            var w3 := PlayStation(w2, x, true, true);
            && w1.state.playbackState.isPlaying
            && w2.state.playbackState.currentStation == Some(x) && !w2.state.playbackState.isPlaying
            && !w2.state.playbackState.isLoading && w2.state.sound == None
            && w3.state.playbackState.isPlaying && w3.state.playbackState.currentStation == Some(x)
            && w3.state.sound == Some(w.engine.next + 1)
  {
  }

  /** `setVolume(0)` then `setVolume(0.8)` with a loaded sound: both the stored
      setting and the loaded stream end at 0.8. */
  lemma VolumeRoundTrip(w: World)
    requires w.state.sound.Some? && w.state.sound.value in w.engine.live
    ensures var r := SetVolume(SetVolume(w, 0.0, true, true, true, true), 0.8, true, true, true, true);
            && r.state.playbackState.volume == 0.8
            && GetSettings(r.store, true).volume == 0.8
            && r.engine.live[w.state.sound.value] == 0.8
  {
  }
}
