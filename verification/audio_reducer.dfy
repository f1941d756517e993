/** The state and reducer of contexts/AudioContext.tsx: partial merges of the
    playback and sleep-timer slices, the favorites slice, the sound handle, and
    the bounded most-recent-first list of played stations. */
module AudioReducer {
  import opened Wrappers
  import opened Types
  import opened Seqs

  /** An audio-engine handle; the engine itself lives in the Playback module. */
  type Sound = nat

  datatype AudioState = AudioState(
    playbackState: PlaybackState,
    sleepTimer: SleepTimer,
    favorites: seq<Station>,
    recentlyPlayed: seq<Station>,
    sound: Option<Sound>)

  /** A `Partial<PlaybackState>` payload: `Some` marks a key present in it. */
  datatype PlaybackPatch = PlaybackPatch(
    isPlaying: Option<bool>,
    isLoading: Option<bool>,
    currentStation: Option<Option<Station>>,
    volume: Option<real>,
    position: Option<int>,
    duration: Option<int>)

  /** A `Partial<SleepTimer>` payload. */
  datatype TimerPatch = TimerPatch(isActive: Option<bool>, duration: Option<int>, remainingTime: Option<int>)

  datatype AudioAction =
    | SetPlaybackState(playback: PlaybackPatch)
    | SetSleepTimer(timer: TimerPatch)
    | SetFavorites(favorites: seq<Station>)
    | AddRecent(station: Station)
    | SetSound(sound: Option<Sound>)

  /** The recents list holds at most this many stations. */
  const RecentLimit: nat := 8

  const InitialPlayback: PlaybackState := PlaybackState(false, false, None, 0.8, 0, 0)
  const InitialTimer: SleepTimer := SleepTimer(false, 0, 0)
  const InitialState: AudioState := AudioState(InitialPlayback, InitialTimer, [], [], None)

  /** A patch with no keys. */
  const NoPlaybackChange: PlaybackPatch := PlaybackPatch(None, None, None, None, None, None)

  /** One key of an object spread: the payload's value when present. */
  function Pick<T>(current: T, patched: Option<T>): T {
    match patched
    case Some(v) => v
    case None => current
  }

  /** Field `f` of the merge is the payload's value if it carries one, else the old value. */
  ghost predicate Overwrites<T>(before: T, patched: Option<T>, after: T) {
    if patched.Some? then after == patched.value else after == before
  }

  /** `{ ...p, ...patch }`. */
  function MergePlayback(p: PlaybackState, patch: PlaybackPatch): (r: PlaybackState)
    ensures Overwrites(p.isPlaying, patch.isPlaying, r.isPlaying)
    ensures Overwrites(p.isLoading, patch.isLoading, r.isLoading)
    ensures Overwrites(p.currentStation, patch.currentStation, r.currentStation)
    ensures Overwrites(p.volume, patch.volume, r.volume)
    ensures Overwrites(p.position, patch.position, r.position)
    ensures Overwrites(p.duration, patch.duration, r.duration)
  {
    PlaybackState(
      Pick(p.isPlaying, patch.isPlaying),
      Pick(p.isLoading, patch.isLoading),
      Pick(p.currentStation, patch.currentStation),
      Pick(p.volume, patch.volume),
      Pick(p.position, patch.position),
      Pick(p.duration, patch.duration))
  }

  /** `{ ...t, ...patch }`. */
  function MergeTimer(t: SleepTimer, patch: TimerPatch): (r: SleepTimer)
    ensures Overwrites(t.isActive, patch.isActive, r.isActive)
    ensures Overwrites(t.duration, patch.duration, r.duration)
    ensures Overwrites(t.remainingTime, patch.remainingTime, r.remainingTime)
  {
    SleepTimer(
      Pick(t.isActive, patch.isActive),
      Pick(t.duration, patch.duration),
      Pick(t.remainingTime, patch.remainingTime))
  }

  /** `ADD_RECENT`: the station first, then the previous list without its uuid,
      cut to eight entries. */
  function RecordRecent(recent: seq<Station>, station: Station): (r: seq<Station>)
    ensures 1 <= |r| <= RecentLimit
    ensures r[0] == station
    ensures forall i :: 1 <= i < |r| ==> r[i].uuid != station.uuid
    ensures IsSubseq(r[1..], Without(recent, station.uuid))
    ensures |r| == if 1 + |Without(recent, station.uuid)| < RecentLimit
                   then 1 + |Without(recent, station.uuid)| else RecentLimit
    ensures r[1..] == Without(recent, station.uuid)[..|r| - 1]
  {
    var rest := Without(recent, station.uuid);
    var all := [station] + rest;
    var r := all[..if |all| < RecentLimit then |all| else RecentLimit];
    assert r[1..] == rest[..|r| - 1];
    forall i | 1 <= i < |r| ensures r[i].uuid != station.uuid {
      assert r[i] == rest[i - 1];
    }
    PrefixIsSubseq(rest, |r| - 1);
    r
  }

  lemma {:induction false} PrefixIsSubseq<T>(xs: seq<T>, n: nat)
    requires n <= |xs|
    ensures IsSubseq(xs[..n], xs)
    decreases |xs|
  {
    if n > 0 {
      assert xs[..n][1..] == xs[1..][..n - 1];
      PrefixIsSubseq(xs[1..], n - 1);
    }
  }

  /** The reducer. */
  function Reduce(s: AudioState, a: AudioAction): (r: AudioState)
    ensures a.SetPlaybackState? ==> r == s.(playbackState := MergePlayback(s.playbackState, a.playback))
    ensures a.SetSleepTimer? ==> r == s.(sleepTimer := MergeTimer(s.sleepTimer, a.timer))
    ensures a.SetFavorites? ==> r == s.(favorites := a.favorites)
    ensures a.AddRecent? ==> r == s.(recentlyPlayed := RecordRecent(s.recentlyPlayed, a.station))
    ensures a.SetSound? ==> r == s.(sound := a.sound)
  {
    match a
    case SetPlaybackState(patch) => s.(playbackState := MergePlayback(s.playbackState, patch))
    case SetSleepTimer(patch) => s.(sleepTimer := MergeTimer(s.sleepTimer, patch))
    case SetFavorites(favorites) => s.(favorites := favorites)
    case AddRecent(station) => s.(recentlyPlayed := RecordRecent(s.recentlyPlayed, station))
    case SetSound(sound) => s.(sound := sound)
  }

  /** What every recents list the reducer builds satisfies. */
  predicate RecentsWellFormed(recent: seq<Station>) {
    |recent| <= RecentLimit && UniqueUuids(recent)
  }

  /** `ADD_RECENT` keeps the list bounded and free of duplicate uuids. */
  lemma RecordRecentWellFormed(recent: seq<Station>, station: Station)
    requires UniqueUuids(recent)
    ensures RecentsWellFormed(RecordRecent(recent, station))
  {
    var r := RecordRecent(recent, station);
    var rest := Without(recent, station.uuid);
    assert UniqueUuids(rest) by {
      SubseqUnique(rest, recent);
    }
    forall i, j | 0 <= i < j < |r| ensures r[i].uuid != r[j].uuid {
      if i > 0 {
        assert r[i] == rest[i - 1] && r[j] == rest[j - 1];
      }
    }
  }

  /** A subsequence of a uuid-unique list is uuid-unique. */
  lemma {:induction false} SubseqUnique(a: seq<Station>, b: seq<Station>)
    requires IsSubseq(a, b) && UniqueUuids(b)
    ensures UniqueUuids(a)
    decreases |b|
  {
    if a != [] {
      assert UniqueUuids(b[1..]) by {
        forall i, j | 0 <= i < j < |b[1..]| ensures b[1..][i].uuid != b[1..][j].uuid {
          assert b[1..][i] == b[i + 1] && b[1..][j] == b[j + 1];
        }
      }
      if a[0] == b[0] && IsSubseq(a[1..], b[1..]) {
        SubseqUnique(a[1..], b[1..]);
        forall j | 1 <= j < |a| ensures a[0].uuid != a[j].uuid {
          assert a[j] in a[1..];
          SubseqMember(a[1..], b[1..], a[j]);
          var k :| 0 <= k < |b[1..]| && b[1..][k] == a[j];
          assert b[k + 1] == a[j];
        }
        forall i, j | 0 <= i < j < |a| ensures a[i].uuid != a[j].uuid {
          if i > 0 {
            assert a[i] == a[1..][i - 1] && a[j] == a[1..][j - 1];
          }
        }
      } else {
        SubseqUnique(a, b[1..]);
      }
    }
  }

  /** Recording the station already at the head of a reducer-built list leaves
      the list unchanged. */
  lemma {:induction false} RecordHeadAgain(recent: seq<Station>, station: Station)
    requires RecentsWellFormed(recent) && recent != [] && recent[0] == station
    ensures RecordRecent(recent, station) == recent
  {
    var tail := recent[1..];
    assert forall i :: 0 <= i < |tail| ==> OtherThan(station.uuid)(tail[i]) by {
      forall i | 0 <= i < |tail| ensures tail[i].uuid != station.uuid {
        assert tail[i] == recent[i + 1];
      }
    }
    FilterAllPass(tail, OtherThan(station.uuid));
    assert recent == [recent[0]] + tail;
    assert Without(recent, station.uuid) == tail;
  }

  /** Recording A, then B, then A yields exactly [A, B]. */
  lemma RecordTwoStations(a: Station, b: Station)
    requires a.uuid != b.uuid
    ensures RecordRecent(RecordRecent(RecordRecent([], a), b), a) == [a, b]
  {
    var l1 := RecordRecent([], a);
    assert l1 == [a];
    var l2 := RecordRecent(l1, b);
    assert Without(l1, b.uuid) == [a];
    assert l2 == [b, a];
    assert l2[1..] == [a] && l2[1..][1..] == [];
    assert Filter(l2[1..], OtherThan(a.uuid)) == [];
    assert Without(l2, a.uuid) == [b];
  }
}
