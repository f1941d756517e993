# RadioTunel core in Dafny

A model of the logic of RadioTunel, a React Native internet-radio app for Turkish
stations. The model covers:

- **Audio context** (`contexts/AudioContext.tsx`): the reducer, and each operation
  (`playStation`, `pausePlayback`, `stopPlayback`, `setVolume`, the sleep timer,
  favorites) as a transition of an explicit world. The world is the reducer
  state, the audio engine (loaded handles with their volumes) and the key-value
  store.
- **Services**: the favorites/settings store and the post-fetch policies of the
  radio-browser service.
- **List and screen policies**: the search filter with Turkish-letter folding,
  the re-entry locks and debounce gates, the station merge pipeline, the mute
  memory, the language context and the clock formatters.

Each operation of the audio context is split at its awaits. A step is the
code that runs when an await settles, up to the next await. Each step carries
what its call captured when it was made: the sound, the pending play, the
value a storage read returned. `Session` traces run these steps in any order,
so calls may overlap freely. An await whose settling changes nothing the
model tracks (`stopAsync`, `pauseAsync`, `getStatusAsync`, a storage read)
shares the step of the await after it. The whole calls, with nothing
interleaved, are built from the same steps, and `Session.CallIsTrace` proves
that each one is a trace. Whether an awaited call succeeds is a boolean
parameter (`readOk`, `writeOk`, `unloadOk`, `loadOk`, …). Time is an explicit
natural number of milliseconds or seconds.

Modules, one per file:

| module | file | models |
|---|---|---|
| `Wrappers` | wrappers.dfy | `Option`, `Result` |
| `Seqs` | seqs.dfy | `filter` and the subsequence relation |
| `Sorting` | sorting.dfy | stable sort by a total preorder |
| `Text` | text.dfy | `trim`, `toLowerCase`, the six Turkish-letter replacements, `includes`, `toString`, code-unit order |
| `Types` | types.dfy | record shapes of types/radio.ts, uuid helpers |
| `StorageService` | storage.dfy | services/storageService.ts |
| `RadioBrowser` | radio_browser.dfy | services/radioBrowserService.ts |
| `AudioReducer` | audio_reducer.dfy | `audioReducer`, `initialState` |
| `Playback` | playback.dfy | the operations of the audio context |
| `Session` | session.dfy | arbitrary interleavings of the steps of those operations |
| `RadioList` | radio_list.dfy | components/RadioList.tsx |
| `AllStations` | all_stations.dfy | screens/AllStationsScreen.tsx |
| `StationCard` | station_card.dfy | components/RadioStationCard.tsx |
| `PlayerGate` | player_gate.dfy | the play/pause lock shared by LargePlayer and MiniPlayer |
| `LargePlayer` | large_player.dfy | components/LargePlayer.tsx |
| `MiniPlayer` | mini_player.dfy | components/MiniPlayer.tsx |
| `LanguageContext` | language.dfy | contexts/LanguageContext.tsx |
| `TimeFormat` | time_format.dfy | the three `formatTime` helpers |
| `SleepTimerUi` | sleep_timer_ui.dfy | screens/SleepTimerScreen.tsx, components/SleepTimerModal.tsx |

## Behaviour as written

The model follows the code, with two exceptions. The quality sort of the
Turkish list uses the intended order (see "## Findings" and "## Left out").
The search filter is modelled both as written and corrected. Where the code
differs from what one might expect, the model keeps the code's behaviour:

- **No guard on late loads.** `playStation` does not check that a finished
  load is still for the current station. A late success marks playing and
  stores its handle whatever happened since. Three lemmas show what this
  allows: `Session.OverlappingPlaysOrphanAStream`,
  `Session.LateLoadOverwritesNewerFailure` and `Session.StopDuringLoad`.
- **Stale calls act on the current state.** `pausePlayback`, `stopPlayback`
  and the teardown in `playStation` await calls on the sound their call
  captured. When those calls settle they clear whatever sound, and for a
  stop whatever station, the state holds at that moment. A teardown that
  settles after a newer play loaded leaves the state playing with no sound.
  A pause then has nothing to stop, and the newer stream stays loaded with
  nothing referring to it: `Session.StaleTeardownOrphansNewerStream`. A stop
  that straddles a play does the same to the newer station:
  `Session.StaleStopOrphansNewerStream`.
- **Stop leaves `isLoading` alone.** `stopPlayback` does not touch `isLoading`.
  If its teardown fails, nothing changes at all.
- **No volume clamping.** `setVolume` stores any value it is given.
- **Pause has no loading phase.** `pausePlayback` has no transitional loading
  state. Replaying after a pause loads a new handle (`Session.PlayPausePlay`).
- **No same-station dedupe in `playStation`.** The only same-station guards
  are the list lock and the card debounce.
- **A failed read drops favorites.** A failed favorites read counts as an empty
  list. A successful write after it therefore replaces the stored favorites:
  `[station]` on add, `[]` on remove.
- **A failed read resets other settings.** A failed settings read before a
  language or volume save writes the defaults for every other setting.
- **The tick reads current state.** The sleep-timer tick reads the current
  state. The code's interval callback captures the state of the render that
  created it, and React recreates that interval whenever the remaining time
  changes.

## Model

| member | source | states |
|---|---|---|
| AudioReducer.MergePlayback | contexts/AudioContext.tsx:43-47 | every playback field is the payload's value when the payload carries it, else the old value |
| AudioReducer.MergeTimer | contexts/AudioContext.tsx:48-52 | every timer field is the payload's value when carried, else the old value |
| AudioReducer.RecordRecent | contexts/AudioContext.tsx:58-64 | the station heads the list, no other entry has its uuid, length is between 1 and 8 and equals min(8, 1 + survivors), the tail is the prior list without that uuid in prior order, cut to fit |
| AudioReducer.Reduce | contexts/AudioContext.tsx:40-72 | each action changes only its own slice: playback and timer by merge, favorites and sound by replacement, recents by `RecordRecent` |
| AudioReducer.RecordRecentWellFormed | contexts/AudioContext.tsx:58-64 | recording into a bounded, uuid-unique list yields a bounded, uuid-unique list |
| AudioReducer.RecordHeadAgain | contexts/AudioContext.tsx:58-64 | recording the station already at the head of a well-formed list leaves it unchanged |
| AudioReducer.RecordTwoStations | contexts/AudioContext.tsx:58-64 | recording A, B, then A again yields exactly [A, B] |
| Playback.PlayBegin | contexts/AudioContext.tsx:156-168 | the station is current and loading, not playing, position and duration 0; nothing else in the state, engine or store changes; the volume at call time is captured |
| Playback.Teardown | contexts/AudioContext.tsx:171-179 | the captured handle is released iff its unload succeeds, and the sound reference is cleared whichever handle it names now; nothing else changes |
| Playback.PlayStart | contexts/AudioContext.tsx:156-182 | with nothing interleaved: loading, not playing, the station current, position and duration 0; the previous handle is released iff its unload succeeds; the sound reference is cleared either way; the start volume is captured |
| Playback.PlaySucceed | contexts/AudioContext.tsx:185-211 | playing, not loading, a fresh handle loaded at the captured volume and stored, the station recorded in recents, the current station untouched |
| Playback.PlayFail | contexts/AudioContext.tsx:212-216 | both flags cleared; current station, sound, recents and engine unchanged |
| Playback.PlayStation | contexts/AudioContext.tsx:156-217 | a whole call ends with the station current, not loading, playing iff the load succeeded; on success the new handle holds the old volume and recents record the station; on failure nothing is recorded |
| Playback.PauseFrom | contexts/AudioContext.tsx:219-236 | both flags always end false with the station kept; the captured handle is released, and the current reference cleared, only if pause and unload both succeed; without a captured sound only the flags change |
| Playback.Pause | contexts/AudioContext.tsx:219-236 | a whole call: both flags end false with the station kept; the loaded handle is released and the reference cleared iff pause and unload both succeed, otherwise the engine is unchanged |
| Playback.StopFrom | contexts/AudioContext.tsx:238-252 | when both calls on the captured sound succeed, that handle is released and the current sound and station are cleared, `isLoading` untouched; a rejected call changes nothing; without a captured sound the station is cleared and the sound kept |
| Playback.Stop | contexts/AudioContext.tsx:238-252 | a whole call: on success no station, not playing, position 0, no sound, the state's handle released; on a teardown error the whole world is unchanged |
| Playback.VolumeFrom | contexts/AudioContext.tsx:254-262 | the call aborts iff the status read on the captured sound rejects or the volume call on a loaded sound rejects; otherwise the state holds the volume unclamped, the loaded handle plays at it, and the store is untouched |
| Playback.SetVolume | contexts/AudioContext.tsx:254-270 | a whole call: a failed status or volume call on a loaded sound aborts with nothing changed; otherwise the state holds the volume unclamped, the loaded stream gets it, and the settings are saved with only the volume replaced |
| Playback.SetSleepTimer | contexts/AudioContext.tsx:272-281 | the timer becomes active with the minutes as duration and 60 times that as remaining seconds; nothing else changes |
| Playback.CancelSleepTimer | contexts/AudioContext.tsx:283-292 | the timer becomes inactive, 0, 0; nothing else changes |
| Playback.TickStart | contexts/AudioContext.tsx:129-154 | an inactive or finished timer does nothing; above one second it only decrements; at one second the timer is cancelled, the station cleared at once only when there is no sound, and the engine untouched until the stop settles |
| Playback.Tick | contexts/AudioContext.tsx:129-154 | a whole tick: an inactive or finished timer does nothing; above one second it only decrements; at one second the world is exactly a whole stop followed by cancelling the timer, sound, engine and store included |
| Playback.SleepTimerExpires | contexts/AudioContext.tsx:129-154 | an active timer with n seconds left has, after n ticks, stopped playback (no station, not playing, no sound) and deactivated itself |
| Playback.SleepOneMinute | contexts/AudioContext.tsx:272-281 | a one-minute timer stops playback after 60 ticks |
| Playback.ExpiryWithFailedStop | contexts/AudioContext.tsx:138-141 | at expiry the timer cancels itself even when the stop fails, and playback then continues |
| Playback.LoadFavorites | contexts/AudioContext.tsx:294-301 | the favorites slice becomes what storage reads back; nothing else changes |
| Playback.LoadedSliceAgreesWithStore | contexts/AudioContext.tsx:294-323 | once the slice is loaded, `isFavorite` answers exactly as the storage service does on the same read: the read succeeded and a stored favorite has the uuid |
| Playback.AddFavorite | contexts/AudioContext.tsx:303-310 | the store is updated by the storage add, then the slice is reloaded from it; the engine is untouched |
| Playback.RemoveFavorite | contexts/AudioContext.tsx:312-319 | the store is updated by the storage remove, then the slice is reloaded; the engine is untouched |
| Session.StepKeepsInvariant | contexts/AudioContext.tsx:40-323 | every step between awaits, whatever its call captured and in any interleaving, keeps: never both playing and loading, recents bounded and unique, the timer consistent, the stored sound loaded |
| Session.RunKeepsInvariant | contexts/AudioContext.tsx:40-323 | the invariant holds after any trace of steps |
| Session.ReachableInvariant | contexts/AudioContext.tsx:75-91 | every state reachable from the initial state satisfies the invariant |
| Session.CallIsTrace | contexts/AudioContext.tsx:156-319 | every whole call, with nothing interleaved, equals the run of its own steps, so the trace invariants hold for calls too |
| Session.CallKeepsSingleStream | contexts/AudioContext.tsx:156-270 | whole calls that do not overlap keep at most one handle loaded, the one the state refers to, as long as each play's unload succeeds |
| Session.StaleTeardownOrphansNewerStream | contexts/AudioContext.tsx:170-236 | a play's teardown settling after a newer play loaded leaves the state playing with no sound; a pause then leaves the newer stream loaded with nothing referring to it |
| Session.StaleStopOrphansNewerStream | contexts/AudioContext.tsx:238-252 | a stop whose calls settle after a newer play loaded clears the newer station and sound while its stream stays loaded |
| Session.OverlappingPlaysOrphanAStream | contexts/AudioContext.tsx:170-208 | two overlapping plays that both load leave two handles loaded, one referenced by nothing |
| Session.LateLoadOverwritesNewerFailure | contexts/AudioContext.tsx:199-216 | a late success of an abandoned play marks playing although the station shown failed, and records the other station |
| Session.StopDuringLoad | contexts/AudioContext.tsx:238-252 | stopping during a load leaves `isLoading` set with no station, and the load completing then marks playing with no station |
| Session.FailedUnloadOrphansStream | contexts/AudioContext.tsx:170-177 | a failed unload during `playStation` leaves the old stream loaded beside the new one |
| Session.PlayPausePlay | contexts/AudioContext.tsx:156-236 | play, pause and play again ends playing the same station on a fresh handle; the pause left no sound |
| Session.VolumeRoundTrip | contexts/AudioContext.tsx:254-270 | setting 0 then 0.8 leaves state, stored setting and loaded stream at 0.8 |
| StorageService.GetFavorites | services/storageService.ts:11-19 | the stored list, or [] when the key is absent or the read fails |
| StorageService.AddToFavorites | services/storageService.ts:24-36 | appends the station at the end only if no stored favorite has its uuid; otherwise, or when the write fails, the store is unchanged; settings are untouched |
| StorageService.AddKeepsUnique | services/storageService.ts:27-31 | stored uuids that were unique stay unique after an add |
| StorageService.AddThenIsFavorite | services/storageService.ts:24-36 | after a successful add the station reads back as a favorite |
| StorageService.AddKeepsOthers | services/storageService.ts:24-36 | a successful add leaves every other uuid's favorite status unchanged |
| StorageService.RemoveFromFavorites | services/storageService.ts:41-49 | a successful write stores the list read with every entry of the uuid removed and the others in order |
| StorageService.RemoveThenNotFavorite | services/storageService.ts:41-49 | after a successful remove the uuid is no favorite and every other uuid keeps its status |
| StorageService.IsFavorite | services/storageService.ts:54-62 | true iff the read succeeds and some stored favorite has the uuid |
| StorageService.GetSettings | services/storageService.ts:67-83 | the stored settings, or Turkish, 0.8, no autoplay when absent or on error |
| StorageService.SaveSettings | services/storageService.ts:88-94 | a successful save is read back exactly; a failed save changes nothing; favorites are untouched |
| StorageService.SaveThenGetSettings | services/storageService.ts:67-94 | settings saved successfully read back unchanged |
| StorageService.ClearAll | services/storageService.ts:99-105 | after a successful clear every read gives [] and the default settings; a failed clear changes nothing |
| RadioBrowser.Body | services/radioBrowserService.ts:11-19 | a network failure or non-ok status rejects; otherwise the decoded body |
| RadioBrowser.QualityPrecedence | services/radioBrowserService.ts:22-29 | 192 kbps and above passes regardless of last check, URL or codec; below it, all four conditions are required |
| RadioBrowser.QualityBeforeIsPreorder | services/radioBrowserService.ts:32-37 | the intended quality order (bitrate with 0 as 320 descending, then clicks descending) is a total preorder |
| RadioBrowser.CompareAgreesOutsideZeroVs320 | services/radioBrowserService.ts:32-37 | the comparator as written agrees with the intended order on every pair except a zero bitrate against an explicit 320 |
| RadioBrowser.CompareIsInconsistent | services/radioBrowserService.ts:32-37 | no total preorder matches the comparator's ties: 0 ties with two 320 stations that the comparator orders by clicks |
| RadioBrowser.TurkishStations | services/radioBrowserService.ts:9-44 | requests 2·limit; fails iff the fetch fails; returns min(limit, number passing) stations drawn from the passing ones, in quality order, and every passing station left out ranks no higher than each one returned |
| Sorting.PrefixIsBest | services/radioBrowserService.ts:39 | the first n entries of an ordered list are drawn from it, and every entry left out may be placed after each of them |
| RadioBrowser.PlayableOnly | services/radioBrowserService.ts:60-62 | exactly the answer's stations with last check 1 and a resolved URL, in order; fails iff the fetch fails |
| RadioBrowser.SearchStations | services/radioBrowserService.ts:49-68 | an order-preserving subsequence of the answer holding exactly its playable stations; fails iff the fetch fails |
| RadioBrowser.StationsByLanguage | services/radioBrowserService.ts:72-91 | requests 200 stations in the language; fails iff that fetch fails; exactly the playable stations of the answer, in order |
| RadioBrowser.PopularStations | services/radioBrowserService.ts:95-114 | requests the `limit` most voted stations; fails iff that fetch fails; exactly the playable stations of the answer, in order, never more than it sent |
| RadioBrowser.StationByUuid | services/radioBrowserService.ts:118-134 | the first station of an ok, non-empty answer; none for an empty answer and every error |
| RadioBrowser.ClickStation | services/radioBrowserService.ts:139-147 | the statistics ping always resolves |
| RadioList.Fire | components/RadioList.tsx:67-69 | a due timeout, orphaned or referenced, clears the lock; with none due nothing changes; afterwards none is overdue |
| RadioList.Press | components/RadioList.tsx:43-58 | a press on the held uuid is ignored; any other cancels the pending clear, takes the lock and plays the station |
| RadioList.Settle | components/RadioList.tsx:65-70 | after a play settles, a clear is scheduled 1000 ms later; the timeout the ref pointed at before keeps running |
| RadioList.LockClearsAfterOneSecond | components/RadioList.tsx:65-70 | a second after a play settles the lock is free and the station can be played again |
| RadioList.RepeatPressIgnored | components/RadioList.tsx:47-50 | pressing the station just pressed is ignored until the lock clears |
| RadioList.OrphanedTimeoutReleasesLaterLock | components/RadioList.tsx:53-70 | with two overlapping plays, the first play's timeout clears the lock the second took, 1000 ms after the first settled |
| RadioList.EmptyUuidNeverPlays | components/RadioList.tsx:41-50 | the free lock is the empty string, so a station with an empty uuid is never played from the list |
| RadioList.FilterStations | components/RadioList.tsx:73-99 | a blank query returns the list unchanged; otherwise a station is kept iff some lower-cased field contains the normalised, untrimmed query; the result is an order-preserving subsequence |
| RadioList.BlankQueryKeepsAll | components/RadioList.tsx:74-77 | a query of whitespace only leaves the list as it is |
| RadioList.QueryFoldedFieldsNot | components/RadioList.tsx:78-97 | the query "ü" normalises to "u" and does not find a station named "ü" |
| RadioList.FilterStationsFolded | components/RadioList.tsx:78-97 | with fields normalised like the query, every station whose name contains the query is found |
| RadioList.NormalizePreservesContains | components/RadioList.tsx:78-85 | lower-casing then folding maps a containing string to a containing string |
| AllStations.Rank | screens/AllStationsScreen.tsx:50-61 | exactly the stations passing the filter, as a permutation of the filtered list, in click-count-descending order |
| AllStations.DedupeFirst | screens/AllStationsScreen.tsx:144-148 | unique uuids, an order-preserving subsequence, the same set of uuids, the first element kept, and each entry the first one of its uuid |
| AllStations.Combined | screens/AllStationsScreen.tsx:63-143 | Herkul, then A Haber, then the ranked search matches, then the ranked main list |
| AllStations.Merge | screens/AllStationsScreen.tsx:143-148 | unique uuids, the two hand-added stations first, an order-preserving subsequence of the combined list with the same uuids |
| AllStations.MergeCovers | screens/AllStationsScreen.tsx:50-148 | every station either filter keeps is represented by uuid in the merge |
| AllStations.MergeOnlyKept | screens/AllStationsScreen.tsx:50-148 | the merge holds only the hand-added stations and stations the filters keep |
| AllStations.Load | screens/AllStationsScreen.tsx:36-165 | a failed directory request leaves the lists unchanged; a failed search contributes nothing; otherwise the shown and original lists are the merge; the spinner stops and the A-Z flag is kept |
| AllStations.ByClicksIsPreorder | screens/AllStationsScreen.tsx:57 | clicks descending, a missing count as 0, is a total preorder |
| AllStations.ByNameIsPreorder | screens/AllStationsScreen.tsx:191 | the name order is a total preorder |
| AllStations.ToggleAz | screens/AllStationsScreen.tsx:187-197 | switching on sorts the shown list by name as a permutation; switching off restores the merged list |
| AllStations.ToggleTwiceRestores | screens/AllStationsScreen.tsx:187-197 | after a load, on then off shows the merged list again |
| AllStations.AzOrderIsStable | screens/AllStationsScreen.tsx:191 | equal names keep their relative order |
| Sorting.Sort | screens/AllStationsScreen.tsx:57 | the result is a permutation of the input, ordered by the preorder |
| Sorting.SortStable | screens/AllStationsScreen.tsx:57 | within each class of mutually tied elements, the input order survives |
| StationCard.PressCard | components/RadioStationCard.tsx:31-59 | accepted iff at least 300 ms since the last accepted press and no processing window open; a rejected press changes nothing; an accepted one records its time and opens a 500 ms window |
| StationCard.AcceptedSpacing | components/RadioStationCard.tsx:35-58 | in a time-ordered trace, accepted presses come from the trace and are at least 500 ms apart |
| StationCard.HighlightFollowsPlayback | components/RadioStationCard.tsx:20 | once a play starts, loaded or not, exactly the cards with its uuid are highlighted; a pause keeps the highlight; a stop that goes through clears every card |
| StationCard.ToggleFavorite | components/RadioStationCard.tsx:23-29 | removes the station if the slice lists it, adds it otherwise |
| StationCard.ToggleFavoriteFlips | components/RadioStationCard.tsx:23-29 | with storage succeeding and the slice in sync, the heart flips, the slice stays in sync, and every other uuid keeps its status |
| PlayerGate.PressPlayPause | components/LargePlayer.tsx:61-73 | ignored while locked or loading; otherwise the lock is taken and the press pauses, replays the current station, or does nothing without one |
| PlayerGate.Settled | components/MiniPlayer.tsx:89-91 | the lock frees exactly 600 ms after the action settles |
| PlayerGate.Perform | components/MiniPlayer.tsx:80-92 | a pause command calls `pausePlayback`, a play command `playStation` with the current station |
| PlayerGate.AcceptedPressWhilePlayingPauses | components/MiniPlayer.tsx:80-88 | a press that passes the gate while playing always ends not playing, on the same station |
| PlayerGate.AcceptedPressWhilePausedReplays | components/LargePlayer.tsx:65-69 | a press that passes the gate while paused on a station replays it; playing iff the load succeeds |
| PlayerGate.LockedUntilRelease | components/LargePlayer.tsx:61-73 | presses from the accepted press until 600 ms after its action settles are ignored; after that one is accepted again |
| LargePlayer.InitialMute | components/LargePlayer.tsx:42-44 | unmuted, slider and memory at the context volume |
| LargePlayer.VolumeSync | components/LargePlayer.tsx:48-59 | the slider follows the volume; muted iff the volume is not positive; a positive volume is remembered |
| LargePlayer.ToggleMute | components/LargePlayer.tsx:96-113 | unmute requests the remembered volume if positive, else 0.8, never 0; mute requests 0 and remembers the slider volume if positive, else the old memory unless 0, else 0.8 |
| LargePlayer.MemoryStaysPositive | components/LargePlayer.tsx:48-113 | once the remembered volume is positive, sync and toggle keep it positive |
| LargePlayer.MuteUnmuteRestores | components/LargePlayer.tsx:48-113 | mute, sync 0, unmute requests the earlier volume and returns to the earlier local state |
| LargePlayer.MutePress | components/LargePlayer.tsx:48-113 | the requested volume goes through `setVolume`; the sync effect runs only if the context volume changed, so an aborted call leaves the press's own mute state; if the mute state did not flip, the context volume is unchanged |
| LargePlayer.AbortedMuteShowsMutedWhilePlaying | components/LargePlayer.tsx:48-113 | muting while `setVolume` rejects shows muted with the slider at 0 while the context and the loaded stream stay at 0.8 |
| LargePlayer.FavoritePress | components/LargePlayer.tsx:86-93 | toggles the current station's favorite; with no station nothing happens |
| MiniPlayer.BarFollowsPlayback | components/MiniPlayer.tsx:76-78 | the bar appears once a play starts, whether or not it loads, stays through a pause, disappears when a stop goes through, and stays when the stop's unload fails |
| MiniPlayer.ExpandTap | components/MiniPlayer.tsx:94-98 | the tap expands iff the bar renders |
| MiniPlayer.SwipeExpandsIff | components/MiniPlayer.tsx:30-43 | a touch expands the player iff some move before the release travelled more than 10 points vertically and the release is more than 50 points up |
| MiniPlayer.SwipeExamples | components/MiniPlayer.tsx:30-43 | a 60-point swipe up expands; one released 40 up springs back; a touch that never moved 10 points never expands |
| LanguageContext.SetLanguageAction | contexts/LanguageContext.tsx:26-32 | language set to the payload with the matching table |
| LanguageContext.InitialIsConsistent | contexts/LanguageContext.tsx:38-41 | the initial state is Turkish with the Turkish table |
| LanguageContext.SetLanguage | contexts/LanguageContext.tsx:50-60 | the state switches first; a successful save stores the settings read with only the language replaced; a failed save changes neither store nor state back |
| LanguageContext.Startup | contexts/LanguageContext.tsx:63-74 | the stored language, Turkish when absent or unreadable, with its table |
| LanguageContext.LanguagePersists | contexts/LanguageContext.tsx:50-74 | a language saved successfully comes back at the next start and the other settings survive |
| LanguageContext.FailedReadResetsOtherSettings | contexts/LanguageContext.tsx:55-56 | a failed read before the save writes default volume and autoplay |
| TimeFormat.Pad2 | components/SleepTimerModal.tsx:37 | at least two digits, exactly two below 100, reading back as the number |
| TimeFormat.FormatMinSec | components/SleepTimerModal.tsx:34-38 | unwrapped minutes, a colon, seconds padded to two digits |
| TimeFormat.MinSecRoundTrip | components/SleepTimerModal.tsx:34-38 | reading the M:SS text back gives the seconds |
| TimeFormat.ClockParts | screens/SleepTimerScreen.tsx:25-27 | hours·3600 + minutes·60 + seconds is the input, minutes and seconds below 60 |
| TimeFormat.FormatClock | screens/SleepTimerScreen.tsx:24-33 | H:MM:SS with padded fields when there are hours, else M:SS of at most five characters |
| TimeFormat.ClockRoundTrip | screens/SleepTimerScreen.tsx:24-33 | reading either clock form back gives the seconds |
| TimeFormat.ClockAgreesBelowAnHour | screens/SleepTimerScreen.tsx:29-32 | below an hour the screen and the modal show the same text |
| SleepTimerUi.OptionsNest | components/SleepTimerModal.tsx:18 | the quick options are the modal's options without 90 and 120 |
| SleepTimerUi.QuickOptionPress | screens/SleepTimerScreen.tsx:46-53 | with no timer active, sets the timer to the option's minutes; while active, nothing changes |
| SleepTimerUi.CustomButtonPress | screens/SleepTimerScreen.tsx:132-137 | opens the modal only while no timer is active |
| SleepTimerUi.ModalChoose | components/SleepTimerModal.tsx:24-27 | sets the timer to the option's minutes, then closes |
| SleepTimerUi.ModalCancel | components/SleepTimerModal.tsx:29-32 | cancels the timer, then closes |
| SleepTimerUi.ModalStatus | components/SleepTimerModal.tsx:60-69 | the status shows iff a timer is active, as M:SS text that reads back as the remaining seconds |
| SleepTimerUi.ScreenStatus | screens/SleepTimerScreen.tsx:70-79 | the status card shows iff a timer is active, as clock text that reads back as the remaining seconds |
| SleepTimerUi.ModalShowsChosenLength | components/SleepTimerModal.tsx:24-38 | right after choosing, the status reads back the full chosen length |
| Types.Without | contexts/AudioContext.tsx:59 | drops exactly the entries with the uuid, keeps the rest in order, and keeps every other uuid present |
| Types.FirstWithWithout | screens/AllStationsScreen.tsx:144-148 | removing one uuid leaves the first entry of every other uuid in place |
| Text.TrimEmptyIffBlank | components/RadioList.tsx:74 | a string trims to nothing iff all its characters are whitespace |
| Text.Fold | components/RadioList.tsx:79-85 | same length, none of ı ü ö ş ç ğ left, every other character unchanged |
| Text.ContainsIffSplit | components/RadioList.tsx:97 | `includes` holds iff the haystack splits around the needle |
| Text.ParseNatToString | components/SleepTimerModal.tsx:37 | the decimal rendering of a natural number reads back as the number |

## Left out

- Rendering, styling, animation values, responsive sizes, `Alert`, `Share` and `Linking` are presentation. The confirm dialogs in front of stop and cancel are reduced to the confirmed action.
- `fetch`, `AsyncStorage` and the `expo-av` sound objects are replaced by the `Fetch` answer, the `Store` record and the `Engine` map. JSON encoding round-trips as identity. An engine or storage call takes effect at the moment it settles, and it succeeds or fails as its flag says.
- The audio-mode configuration at mount, and the engine's paused-versus-playing status, are not modelled. The engine only tracks which handles are loaded and at what volume.
- Real timer scheduling is not modelled. `Session` traces allow any order of steps, and the list and gate timeouts fire when the next event arrives at or after their time.
- `Session` steps: a step's captured values are arbitrary, so traces include some that no real run produces. The invariant is proved for all of them. The stale-call lemmas use only captures a real run makes.
- Only the remaining time counts as the sleep-timer interval's state. The interval's closure and its recreation on every change are left out, and the tick reads the current state.
- Text.LowerChar: `toLowerCase` is covered for ASCII, Latin-1, Ğ, Ş and İ only. Other scripts are left unchanged, because full Unicode case mapping is a library table.
- Text.Trim: `trim` uses the JavaScript whitespace set listed in `IsSpace`, without line terminators beyond U+2028 and U+2029.
- AllStations.ByName: `localeCompare` is replaced by code-unit order. Locale collation rules are a library table.
- TimeFormat.FormatMinSec: only whole, non-negative seconds are modelled. Its one caller passes the sleep timer's remaining seconds, which the app keeps whole and non-negative. The identical helper in components/LargePlayer.tsx has no caller.
- SleepTimerUi.ModalStatus: requires non-negative remaining time. Every reachable state satisfies this (`Session.TimerWellFormed`).
- Floating-point volume arithmetic is left out. Volumes are reals compared and assigned only. The opacity formula of the mini-player drag is presentation.
- `encodeURIComponent` and the query strings of the directory requests are left out. Only the requested sizes (2·limit for the Turkish list, 200 by language, `limit` for the popular list) and the language are modelled.
- RadioBrowser.TurkishStations: sorts by the intended quality order (`QualityBefore`), not by the comparator as written. With that comparator ECMAScript leaves the order implementation-defined (`CompareIsInconsistent`), so no single result can be stated for it. `AllStations.Load` inherits this.
- i18n/translations.ts is data only. It is represented by the two table names.
- The settings, drawer, favorites screen and alphabet filter components are not part of this model. They are UI wiring with no decisions of their own.

## Findings

| source | as written | input that shows it | evidently intended | confidence | as-written member | corrected member |
|---|---|---|---|---|---|---|
| services/radioBrowserService.ts:32-37 | the comparator tests the raw bitrates for inequality but subtracts `bitrate \|\| 320`, so 0 and 320 compare equal while 320 and 320 compare by clicks | stations at 0, 320 (1 click) and 320 (5 clicks): 0 ties with both 320s, yet the two 320s are strictly ordered, which no consistent order allows | order by effective bitrate (0 as 320) descending, then clicks descending | not executed | RadioBrowser.CompareIsInconsistent | RadioBrowser.TurkishStations |
| components/RadioList.tsx:78-97 | the query is lower-cased and its Turkish letters folded, but the fields are only lower-cased | a station named "ü" searched with "ü": the query becomes "u", the field stays "ü", and nothing matches | fold the fields exactly like the query, so a name containing the query is always found | not executed | RadioList.QueryFoldedFieldsNot | RadioList.FilterStationsFolded |
