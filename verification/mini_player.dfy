/** components/MiniPlayer.tsx: when the bar shows, the expand tap and the
    swipe-up gesture. Its play/pause button is the shared gate of
    `PlayerGate`. */
module MiniPlayer {
  import opened Wrappers
  import opened Types
  import Playback

  /** The component renders nothing without a current station. */
  predicate Renders(pb: PlaybackState) {
    pb.currentStation.Some?
  }

  /** The bar appears as soon as a play starts, whether or not it loads, stays
      through a pause, and disappears when a stop goes through. */
  lemma BarFollowsPlayback(w: Playback.World, station: Station, pauseOk: bool, unloadOk: bool, loadOk: bool)
    ensures Renders(Playback.PlayBegin(w, station).0.state.playbackState)
    ensures Renders(Playback.PlayStation(w, station, unloadOk, loadOk).state.playbackState)
    ensures Renders(Playback.Pause(w, pauseOk, unloadOk).state.playbackState) <==> Renders(w.state.playbackState)
    ensures w.state.sound.None? || unloadOk ==> !Renders(Playback.Stop(w, true, unloadOk).state.playbackState)
    ensures w.state.sound.Some? && !unloadOk
            ==> (Renders(Playback.Stop(w, true, unloadOk).state.playbackState) <==> Renders(w.state.playbackState))
  {
  }

  /** `handleExpand` calls `onExpand` only with a current station. */
  function ExpandTap(pb: PlaybackState): (r: bool)
    ensures r <==> Renders(pb)
  {
    pb.currentStation.Some?
  }

  function Abs(x: real): (r: real)
    ensures r >= 0.0 && (r == x || r == -x)
  {
    if x < 0.0 then -x else x
  }

  /** `onMoveShouldSetPanResponder`: a move whose vertical travel exceeds 10
      points claims the gesture. */
  predicate ClaimsPan(dy: real) {
    Abs(dy) > 10.0
  }

  /** `onPanResponderRelease`: releasing more than 50 points up expands. */
  predicate ReleaseExpands(dy: real) {
    dy < -50.0
  }

  /** A touch on the bar: the vertical travel reported at each move, then at
      the release. The responder is asked on every move until one claims the
      gesture; only a claimed gesture receives the release. */
  function Swipe(moves: seq<real>, release: real): (r: bool)
    decreases |moves|
  {
    if moves == [] then false
    else if ClaimsPan(moves[0]) then ReleaseExpands(release)
    else Swipe(moves[1..], release)
  }

  /** A swipe expands the player iff some move travelled more than 10 points
      vertically and the release is more than 50 points up; a touch that
      never moved that far, or a release that is not far enough up, never
      expands. */
  lemma {:induction false} SwipeExpandsIff(moves: seq<real>, release: real)
    ensures Swipe(moves, release)
            <==> (exists i :: 0 <= i < |moves| && ClaimsPan(moves[i])) && release < -50.0
    decreases |moves|
  {
    if moves != [] && !ClaimsPan(moves[0]) {
      SwipeExpandsIff(moves[1..], release);
      if exists i :: 0 <= i < |moves| && ClaimsPan(moves[i]) {
        var i :| 0 <= i < |moves| && ClaimsPan(moves[i]);
        assert moves[1..][i - 1] == moves[i];
      }
      if exists i :: 0 <= i < |moves[1..]| && ClaimsPan(moves[1..][i]) {
        var i :| 0 <= i < |moves[1..]| && ClaimsPan(moves[1..][i]);
        assert moves[i + 1] == moves[1..][i];
      }
    }
  }

  /** A swipe up that moved 60 points expands; the same finger travel claimed
      on the way but released only 40 points up springs back. */
  lemma SwipeExamples()
    ensures Swipe([-5.0, -20.0, -60.0], -60.0)
    ensures !Swipe([-5.0, -20.0, -40.0], -40.0)
    ensures !Swipe([-5.0, 8.0], -60.0)
  {
  }
}
