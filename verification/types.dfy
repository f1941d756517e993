/** Record shapes of the app (types/radio.ts) and the uuid helpers every list policy shares. */
module Types {
  import opened Wrappers
  import opened Seqs

  /** A directory entry, reduced to the fields the app's logic reads. A missing
      click count is `None`. */
  datatype Station = Station(
    uuid: string,
    name: string,
    urlResolved: string,
    homepage: string,
    tags: string,
    country: string,
    state: string,
    language: string,
    codec: string,
    bitrate: int,
    lastCheckOk: int,
    clickCount: Option<int>)

  /** The playback slice of the audio context. Volume is a real; only
      comparisons and assignment are applied to it. */
  datatype PlaybackState = PlaybackState(
    isPlaying: bool,
    isLoading: bool,
    currentStation: Option<Station>,
    volume: real,
    position: int,
    duration: int)

  /** Sleep timer: `duration` in minutes, `remainingTime` in seconds. */
  datatype SleepTimer = SleepTimer(isActive: bool, duration: int, remainingTime: int)

  datatype Language = Tr | En

  datatype AppSettings = AppSettings(language: Language, volume: real, autoPlay: bool)

  /** `clickcount || 0`: a missing count ranks as zero. */
  function Clicks(s: Station): int {
    match s.clickCount
    case Some(c) => c
    case None => 0
  }

  /** Some entry of `xs` carries uuid `u` (the source's `some(x => x.stationuuid === u)`). */
  predicate HasUuid(xs: seq<Station>, u: string) {
    exists i :: 0 <= i < |xs| && xs[i].uuid == u
  }

  /** No two entries of `xs` share a uuid. */
  predicate UniqueUuids(xs: seq<Station>) {
    forall i, j :: 0 <= i < j < |xs| ==> xs[i].uuid != xs[j].uuid
  }

  /** The predicate `x => x.stationuuid !== u` handed to `filter`. */
  function OtherThan(u: string): Station -> bool {
    (s: Station) => s.uuid != u
  }

  /** `xs.filter(x => x.stationuuid !== u)`: every entry with uuid `u` removed,
      all others kept in order. */
  function Without(xs: seq<Station>, u: string): (r: seq<Station>)
    ensures |r| <= |xs|
    ensures !HasUuid(r, u)
    ensures IsSubseq(r, xs)
    ensures forall s :: s in xs && s.uuid != u ==> s in r
    ensures forall v :: v != u ==> (HasUuid(r, v) <==> HasUuid(xs, v))
  {
    var r := Filter(xs, OtherThan(u));
    forall v | v != u
      ensures HasUuid(r, v) <==> HasUuid(xs, v)
    {
      if HasUuid(xs, v) {
        var i :| 0 <= i < |xs| && xs[i].uuid == v;
        assert xs[i] in r;
      }
      if HasUuid(r, v) {
        var i :| 0 <= i < |r| && r[i].uuid == v;
        SubseqMember(r, xs, r[i]);
      }
    }
    r
  }

  /** The first entry of `xs` carrying uuid `u`. */
  function FirstWith(xs: seq<Station>, u: string): (r: Station)
    requires HasUuid(xs, u)
    ensures r in xs && r.uuid == u
  {
    if xs[0].uuid == u then xs[0] else FirstWith(xs[1..], u)
  }

  /** Removing one uuid leaves the first occurrence of every other uuid untouched. */
  lemma {:induction false} FirstWithWithout(xs: seq<Station>, u: string, v: string)
    requires HasUuid(xs, u) && u != v
    ensures HasUuid(Without(xs, v), u)
    ensures FirstWith(Without(xs, v), u) == FirstWith(xs, u)
  {
    var w := Without(xs, v);
    var tail := Without(xs[1..], v);
    if xs[0].uuid == v {
      assert w == tail;
      assert HasUuid(xs[1..], u) by {
        var i :| 0 <= i < |xs| && xs[i].uuid == u;
        assert i > 0 && xs[1..][i - 1].uuid == u;
      }
      FirstWithWithout(xs[1..], u, v);
    } else {
      assert w == [xs[0]] + tail;
      if xs[0].uuid != u {
        assert HasUuid(xs[1..], u) by {
          var i :| 0 <= i < |xs| && xs[i].uuid == u;
          assert i > 0 && xs[1..][i - 1].uuid == u;
        }
        FirstWithWithout(xs[1..], u, v);
        assert w[1..] == tail;
      }
    }
  }

  /** Entries of a uuid-unique list other than `s` itself never carry its uuid. */
  lemma UniqueMemberIsFirst(xs: seq<Station>, i: int)
    requires UniqueUuids(xs) && 0 <= i < |xs|
    ensures FirstWith(xs, xs[i].uuid) == xs[i]
    decreases i
  {
    if i > 0 {
      assert xs[1..][i - 1] == xs[i];
      UniqueMemberIsFirst(xs[1..], i - 1);
    }
  }
}
