/** screens/AllStationsScreen.tsx: the station list the main screen shows,
    built from the Turkish directory list and a search for "cihan", plus the
    A-Z toggle. */
module AllStations {
  import opened Wrappers
  import opened Types
  import opened Seqs
  import opened Sorting
  import opened Text
  import RadioBrowser

  /** The main-list filter: at least 64 kbps, a resolved url, a non-blank
      name, and not the 140 kbps "trt radyo haber" entry. */
  predicate MainKeep(s: Station) {
    s.bitrate >= 64 && s.urlResolved != [] && Trim(s.name) != []
    && !(Contains(Lower(s.name), "trt radyo haber") && s.bitrate == 140)
  }

  /** The filter on the "cihan" search matches. */
  predicate ExtraKeep(s: Station) {
    s.lastCheckOk == 1 && s.urlResolved != [] && Trim(s.name) != []
  }

  /** Higher click count first, a missing count ranking as zero. */
  predicate ByClicks(a: Station, b: Station) {
    Clicks(a) >= Clicks(b)
  }

  lemma ByClicksIsPreorder()
    ensures TotalPreorder(ByClicks)
  {
  }

  /** Keep the stations passing `keep`, most clicked first; equal counts keep
      their order. */
  function Rank(xs: seq<Station>, keep: Station -> bool): (r: seq<Station>)
    ensures multiset(r) == multiset(Filter(xs, keep))
    ensures SortedBy(r, ByClicks)
    ensures forall s :: s in r <==> s in xs && keep(s)
  {
    ByClicksIsPreorder();
    var r := Sort(Filter(xs, keep), ByClicks);
    forall s ensures s in r <==> s in xs && keep(s) {
      assert s in r <==> s in multiset(r);
      if s in Filter(xs, keep) {
        SubseqMember(Filter(xs, keep), xs, s);
      }
    }
    r
  }

  /** Two stations added by hand on top of the list. */
  const Herkul: Station := Station(
    "herkul-radyo-local", "Herkul Radyo", "https://www.radioking.com/play/herkulradyo",
    "https://www.radioking.com/", "T\U{FC}rk\U{E7}e, m\U{FC}zik", "Turkey", "", "turkish",
    "MP3", 128, 1, Some(0))

  const AHaber: Station := Station(
    "7ec738e7-9e9f-4eb5-be74-ec08f2ecb7c2", "A Haber",
    "https://trkvz-radyolar.ercdn.net/ahaberradyo/playlist.m3u8",
    "https://www.ahaber.com.tr/", "Haber, T\U{FC}rk\U{E7}e", "Turkey", "", "turkish",
    "AAC", 128, 1, Some(0))

  /** The first entry for each uuid, in order: the `Map` keyed by uuid that
      only inserts unseen keys. */
  function DedupeFirst(xs: seq<Station>): (r: seq<Station>)
    ensures UniqueUuids(r)
    ensures IsSubseq(r, xs)
    ensures xs != [] ==> r != [] && r[0] == xs[0]
    ensures forall u :: HasUuid(r, u) <==> HasUuid(xs, u)
    ensures forall i :: 0 <= i < |r| ==> HasUuid(xs, r[i].uuid) && FirstWith(xs, r[i].uuid) == r[i]
    decreases |xs|
  {
    if xs == [] then []
    else
      var x := xs[0];
      var w := Without(xs[1..], x.uuid);
      var rest := DedupeFirst(w);
      var r := [x] + rest;
      assert forall j :: 0 <= j < |rest| ==> rest[j].uuid != x.uuid by {
        forall j | 0 <= j < |rest| ensures rest[j].uuid != x.uuid {
          assert HasUuid(rest, rest[j].uuid);
        }
      }
      assert UniqueUuids(r) by {
        forall i, j | 0 <= i < j < |r| ensures r[i].uuid != r[j].uuid {
          if i > 0 {
            assert r[i] == rest[i - 1] && r[j] == rest[j - 1];
          } else {
            assert r[j] == rest[j - 1];
          }
        }
      }
      assert IsSubseq(r, xs) by {
        SubseqTrans(rest, w, xs[1..]);
        assert r[1..] == rest;
      }
      forall u ensures HasUuid(r, u) <==> HasUuid(xs, u) {
        if u != x.uuid {
          HasUuidTail(xs, u);
          HasUuidTail(r, u);
          assert r[1..] == rest;
        } else {
          assert r[0].uuid == u && xs[0].uuid == u;
        }
      }
      forall i | 0 <= i < |r| ensures HasUuid(xs, r[i].uuid) && FirstWith(xs, r[i].uuid) == r[i] {
        if i == 0 {
          assert xs[0].uuid == r[0].uuid;
        } else {
          var u := r[i].uuid;
          assert r[i] == rest[i - 1];
          assert u != x.uuid;
          assert HasUuid(w, u) by { assert HasUuid(rest, u); }
          assert HasUuid(xs[1..], u);
          FirstWithWithout(xs[1..], u, x.uuid);
          HasUuidTail(xs, u);
        }
      }
      r
  }

  /** A uuid other than the head's occurs in a list iff it occurs in its tail. */
  lemma HasUuidTail(xs: seq<Station>, u: string)
    requires xs != [] && xs[0].uuid != u
    ensures HasUuid(xs, u) <==> HasUuid(xs[1..], u)
  {
    if HasUuid(xs, u) {
      var i :| 0 <= i < |xs| && xs[i].uuid == u;
      assert xs[1..][i - 1].uuid == u;
    }
    if HasUuid(xs[1..], u) {
      var i :| 0 <= i < |xs[1..]| && xs[1..][i].uuid == u;
      assert xs[i + 1].uuid == u;
    }
  }

  /** The list before de-duplication: the two hand-added stations, the search
      matches, then the main list. */
  function Combined(turkish: seq<Station>, found: seq<Station>): (r: seq<Station>)
    ensures |r| >= 2 && r[0] == Herkul && r[1] == AHaber
    ensures r[2..] == Rank(found, ExtraKeep) + Rank(turkish, MainKeep)
  {
    var tail := Rank(found, ExtraKeep) + Rank(turkish, MainKeep);
    var r := [Herkul, AHaber] + tail;
    assert r[2..] == tail;
    r
  }

  /** The merged, de-duplicated station list. */
  function Merge(turkish: seq<Station>, found: seq<Station>): (r: seq<Station>)
    ensures UniqueUuids(r)
    ensures |r| >= 2 && r[0] == Herkul && r[1] == AHaber
    ensures IsSubseq(r, Combined(turkish, found))
    ensures forall u :: HasUuid(r, u) <==> HasUuid(Combined(turkish, found), u)
  {
    var c := Combined(turkish, found);
    var r := DedupeFirst(c);
    var w := Without(c[1..], Herkul.uuid);
    assert w == [AHaber] + Filter(c[1..][1..], OtherThan(Herkul.uuid)) by {
      assert c[1..][0] == AHaber && OtherThan(Herkul.uuid)(AHaber);
    }
    assert r == [Herkul] + DedupeFirst(w);
    r
  }

  /** Every station either filter keeps is represented, by uuid, in the merge. */
  lemma MergeCovers(turkish: seq<Station>, found: seq<Station>, s: Station)
    requires (s in turkish && MainKeep(s)) || (s in found && ExtraKeep(s))
    ensures HasUuid(Merge(turkish, found), s.uuid)
  {
    var c := Combined(turkish, found);
    assert s in Rank(turkish, MainKeep) || s in Rank(found, ExtraKeep);
    assert s in c[2..];
    var i :| 0 <= i < |c[2..]| && c[2..][i] == s;
    assert c[i + 2] == s;
  }

  /** The merge holds nothing but the two hand-added stations and stations
      the filters keep. */
  lemma MergeOnlyKept(turkish: seq<Station>, found: seq<Station>)
    ensures forall s :: s in Merge(turkish, found) ==>
              s == Herkul || s == AHaber || (s in found && ExtraKeep(s)) || (s in turkish && MainKeep(s))
  {
    var c := Combined(turkish, found);
    forall s | s in Merge(turkish, found)
      ensures s == Herkul || s == AHaber || (s in found && ExtraKeep(s)) || (s in turkish && MainKeep(s))
    {
      SubseqMember(Merge(turkish, found), c, s);
      assert c == [Herkul, AHaber] + c[2..];
    }
  }

  /** The screen's list state: what is shown, the merged list the A-Z toggle
      restores, the toggle, and the spinner. */
  datatype Screen = Screen(stations: seq<Station>, original: seq<Station>, azActive: bool, loading: bool)

  const InitialScreen: Screen := Screen([], [], false, true)

  /** `loadStations`: 200 Turkish stations (the directory asked for twice as
      many) and the "cihan" matches, merged. A failed Turkish request leaves
      the lists as they were; a failed search contributes nothing. The A-Z
      toggle is not reset. */
  function Load(sc: Screen, directory: nat -> RadioBrowser.Fetch, search: RadioBrowser.Fetch): (r: Screen)
    ensures !r.loading && r.azActive == sc.azActive
    ensures RadioBrowser.TurkishStations(200, directory).Failure? ==> r == sc.(loading := false)
    ensures RadioBrowser.TurkishStations(200, directory).Success? ==>
              r.stations == r.original
              && r.stations == Merge(RadioBrowser.TurkishStations(200, directory).value,
                                     if RadioBrowser.SearchStations(search).Success? then RadioBrowser.SearchStations(search).value else [])
  {
    match RadioBrowser.TurkishStations(200, directory)
    case Failure => sc.(loading := false)
    case Success(turkish) =>
      var found := match RadioBrowser.SearchStations(search)
        case Success(xs) => xs
        case Failure => [];
      var merged := Merge(turkish, found);
      Screen(merged, merged, sc.azActive, false)
  }

  /** `(a.name || '').localeCompare(b.name || '') <= 0`, approximated by code-point order. */
  predicate ByName(a: Station, b: Station) {
    StrLe(a.name, b.name)
  }

  lemma ByNameIsPreorder()
    ensures TotalPreorder(ByName)
  {
    forall a: Station, b: Station ensures ByName(a, b) || ByName(b, a) {
      StrLeTotal(a.name, b.name);
    }
    forall a: Station, b: Station, c: Station | ByName(a, b) && ByName(b, c) ensures ByName(a, c) {
      StrLeTrans(a.name, b.name, c.name);
    }
  }

  /** The A-Z button: turning it on sorts the shown list by name, turning it
      off shows the merged list again. */
  function ToggleAz(sc: Screen): (r: Screen)
    ensures r.azActive == !sc.azActive
    ensures r.original == sc.original && r.loading == sc.loading
    ensures !sc.azActive ==> SortedBy(r.stations, ByName) && multiset(r.stations) == multiset(sc.stations)
    ensures sc.azActive ==> r.stations == sc.original
  {
    if !sc.azActive then
      ByNameIsPreorder();
      sc.(stations := Sort(sc.stations, ByName), azActive := true)
    else sc.(stations := sc.original, azActive := false)
  }

  /** After a load, switching A-Z on and off again shows the merged list in
      its original order. */
  lemma ToggleTwiceRestores(sc: Screen)
    requires sc.stations == sc.original && !sc.azActive
    ensures ToggleAz(ToggleAz(sc)) == sc
  {
  }

  /** Switching A-Z on keeps stations with equal names in their relative
      order, as the stable `Array.prototype.sort` does. */
  lemma AzOrderIsStable(sc: Screen, k: Station)
    requires !sc.azActive
    ensures Filter(ToggleAz(sc).stations, TiedWith(ByName, k)) == Filter(sc.stations, TiedWith(ByName, k))
  {
    ByNameIsPreorder();
    SortStable(sc.stations, ByName, k);
  }
}
