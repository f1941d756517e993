/** components/LargePlayer.tsx: the mute button's volume memory, the effect
    that keeps it in step with the context's volume, and the heart button.
    Its play/pause button is the shared gate of `PlayerGate`. */
module LargePlayer {
  import opened Wrappers
  import opened Types
  import Playback
  import StationCard

  /** The `isMuted` and `localVolume` state and the `lastVolumeRef` ref. */
  datatype MuteState = MuteState(isMuted: bool, localVolume: real, lastVolume: real)

  /** Volume used when there is nothing better to restore. */
  const FallbackVolume: real := 0.8

  /** Mounting with the context's volume. */
  function InitialMute(volume: real): (r: MuteState)
    ensures !r.isMuted && r.localVolume == volume && r.lastVolume == volume
  {
    MuteState(false, volume, volume)
  }

  /** The effect on `playbackState.volume`: the slider follows it, a positive
      volume is remembered and unmutes, any other volume mutes. */
  function VolumeSync(m: MuteState, volume: real): (r: MuteState)
    ensures r.localVolume == volume
    ensures r.isMuted <==> volume <= 0.0
    ensures volume > 0.0 ==> r.lastVolume == volume
    ensures volume <= 0.0 ==> r.lastVolume == m.lastVolume
  {
    if volume > 0.0 then MuteState(false, volume, volume)
    else m.(localVolume := volume, isMuted := true)
  }

  /** `handleToggleMute`: the new local state and the volume handed to
      `setVolume`. Unmuting asks for the remembered volume, or 0.8 when none
      is positive; muting remembers the slider volume if positive (else the
      old memory unless it is 0, else 0.8) and asks for 0. */
  function ToggleMute(m: MuteState): (r: (MuteState, real))
    ensures m.isMuted ==> r.1 > 0.0 && !r.0.isMuted && r.0.localVolume == r.1
    ensures m.isMuted ==> r.1 == (if m.lastVolume > 0.0 then m.lastVolume else FallbackVolume)
    ensures !m.isMuted ==> r.1 == 0.0 && r.0.isMuted && r.0.localVolume == 0.0
    ensures !m.isMuted && m.localVolume > 0.0 ==> r.0.lastVolume == m.localVolume
    ensures !m.isMuted && m.localVolume <= 0.0 ==> r.0.lastVolume == (if m.lastVolume != 0.0 then m.lastVolume else FallbackVolume)
  {
    if m.isMuted then
      var restore := if m.lastVolume > 0.0 then m.lastVolume else FallbackVolume;
      (MuteState(false, restore, m.lastVolume), restore)
    else
      var last := if m.localVolume > 0.0 then m.localVolume else if m.lastVolume != 0.0 then m.lastVolume else FallbackVolume;
      (MuteState(true, 0.0, last), 0.0)
  }

  /** Once the remembered volume is positive it stays positive. */
  predicate MemoryPositive(m: MuteState) {
    m.lastVolume > 0.0
  }

  lemma MemoryStaysPositive(m: MuteState, volume: real)
    requires MemoryPositive(m)
    ensures MemoryPositive(VolumeSync(m, volume))
    ensures MemoryPositive(ToggleMute(m).0)
  {
  }

  /** Muting at a positive volume, letting the context apply 0, then unmuting
      asks for the volume listened to before. */
  lemma MuteUnmuteRestores(m: MuteState, volume: real)
    requires volume > 0.0
    ensures var synced := VolumeSync(m, volume);
            var (muted, zero) := ToggleMute(synced);
            var (unmuted, back) := ToggleMute(VolumeSync(muted, zero));
            zero == 0.0 && back == volume && unmuted == synced
  {
  }

  /** The whole mute press against the context: the requested volume goes
      through `setVolume` with its outcome flags, and the effect on the
      context's volume runs only if that volume changed. When `setVolume`
      aborts, the button and slider keep what the press set. */
  function MutePress(m: MuteState, w: Playback.World, statusOk: bool, setOk: bool, readOk: bool, writeOk: bool): (r: (MuteState, Playback.World))
    ensures r.1 == Playback.SetVolume(w, ToggleMute(m).1, statusOk, setOk, readOk, writeOk)
    ensures r.1.state.playbackState.volume != w.state.playbackState.volume
            ==> r.0 == VolumeSync(ToggleMute(m).0, r.1.state.playbackState.volume)
    ensures r.1.state.playbackState.volume == w.state.playbackState.volume ==> r.0 == ToggleMute(m).0
    ensures r.1 == w ==> r.0 == ToggleMute(m).0
    ensures m.isMuted == r.0.isMuted ==> r.1.state.playbackState.volume == w.state.playbackState.volume
  {
    var (local, v) := ToggleMute(m);
    var w2 := Playback.SetVolume(w, v, statusOk, setOk, readOk, writeOk);
    if w2.state.playbackState.volume != w.state.playbackState.volume then (VolumeSync(local, w2.state.playbackState.volume), w2)
    else (local, w2)
  }

  /** Muting while `setVolume` rejects its status read: the button shows
      muted with the slider at 0, while the context and the loaded stream
      keep the old volume. */
  lemma AbortedMuteShowsMutedWhilePlaying(w: Playback.World)
    requires w.state.sound.Some? && w.state.sound.value in w.engine.live
    requires w.state.playbackState.volume == 0.8 && w.engine.live[w.state.sound.value] == 0.8
    ensures var r := MutePress(MuteState(false, 0.8, 0.8), w, false, true, true, true);
            && r.0 == MuteState(true, 0.0, 0.8)
            && r.1 == w
            && r.1.engine.live[r.1.state.sound.value] == 0.8
  {
  }

  /** The heart on the big player toggles the current station; with no
      station nothing happens. */
  function FavoritePress(w: Playback.World, readOk: bool, writeOk: bool, reloadOk: bool): (r: Playback.World)
    ensures w.state.playbackState.currentStation.None? ==> r == w
    ensures w.state.playbackState.currentStation.Some?
            ==> r == StationCard.ToggleFavorite(w, w.state.playbackState.currentStation.value, readOk, writeOk, reloadOk)
  {
    match w.state.playbackState.currentStation
    case None => w
    case Some(s) => StationCard.ToggleFavorite(w, s, readOk, writeOk, reloadOk)
  }
}
