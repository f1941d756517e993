/** The post-fetch policies of services/radioBrowserService.ts. The HTTP call is a
    parameter: a `Fetch` is what the directory answered, and a request whose
    size the service chooses is a function from that size to the answer. */
module RadioBrowser {
  import opened Wrappers
  import opened Types
  import opened Seqs
  import opened Sorting

  /** A directory answer: an HTTP response with its decoded body, or a network
      failure (the `fetch` promise rejected). */
  datatype Fetch = Response(ok: bool, status: int, body: seq<Station>) | NetworkError

  /** The `fetch`/`response.ok`/`json()` prefix every method shares: a non-ok
      status and a network failure both reject. */
  function Body(f: Fetch): (r: Result<seq<Station>>)
    ensures r.Success? <==> f.Response? && f.ok
    ensures r.Success? ==> r.value == f.body
  {
    if f.Response? && f.ok then Success(f.body) else Failure
  }

  /** The quality filter exactly as parenthesised by JavaScript precedence:
      `a && b && c && d || e` groups as `(a && b && c && d) || e`. */
  predicate PassesQuality(s: Station) {
    || (s.lastCheckOk == 1 && s.urlResolved != "" && (s.bitrate >= 128 || s.bitrate == 0) && s.codec != "MP3")
    || s.bitrate >= 192
  }

  /** Because of the grouping, 192 kbps and above passes whatever the last
      check, URL or codec; below that all four conditions are needed. */
  lemma QualityPrecedence(s: Station)
    ensures s.bitrate >= 192 ==> PassesQuality(s)
    ensures s.bitrate < 192 ==>
              (PassesQuality(s) <==> s.lastCheckOk == 1 && s.urlResolved != "" && (s.bitrate >= 128 || s.bitrate == 0) && s.codec != "MP3")
  {
  }

  /** `bitrate || 320`: an unknown (zero) bitrate ranks as 320. */
  function EffectiveBitrate(s: Station): int {
    if s.bitrate == 0 then 320 else s.bitrate
  }

  /** The quality comparator as written: negative puts `a` first. It tests the
      raw bitrates for inequality but subtracts the effective ones. */
  function Compare(a: Station, b: Station): int {
    if a.bitrate != b.bitrate then EffectiveBitrate(b) - EffectiveBitrate(a)
    else Clicks(b) - Clicks(a)
  }

  /** The order the comparator evidently intends: effective bitrate descending,
      then click count descending. */
  predicate QualityBefore(a: Station, b: Station) {
    || EffectiveBitrate(a) > EffectiveBitrate(b)
    || (EffectiveBitrate(a) == EffectiveBitrate(b) && Clicks(a) >= Clicks(b))
  }

  lemma QualityBeforeIsPreorder()
    ensures TotalPreorder(QualityBefore)
  {
  }

  /** The comparator and the intended order agree on every pair except a zero
      bitrate against an explicit 320. */
  lemma CompareAgreesOutsideZeroVs320(a: Station, b: Station)
    requires !(a.bitrate == 0 && b.bitrate == 320) && !(a.bitrate == 320 && b.bitrate == 0)
    ensures Compare(a, b) < 0 ==> QualityBefore(a, b) && !QualityBefore(b, a)
    ensures Compare(a, b) > 0 ==> QualityBefore(b, a) && !QualityBefore(a, b)
    ensures Compare(a, b) == 0 ==> QualityBefore(a, b) && QualityBefore(b, a)
  {
  }

  /** No consistent order reproduces the comparator: a zero-bitrate station
      ties with two 320 kbps stations, so any total preorder that keeps the
      comparator's ties must also tie those two, which the comparator orders by
      clicks. `Array.prototype.sort` thus receives an inconsistent comparator. */
  lemma CompareIsInconsistent(ge: (Station, Station) -> bool, a: Station, b: Station, c: Station)
    requires TotalPreorder(ge)
    requires forall x, y :: Compare(x, y) == 0 ==> ge(x, y)
    requires a.bitrate == 0 && b.bitrate == 320 && c.bitrate == 320 && Clicks(b) > Clicks(c)
    ensures Compare(b, c) < 0 && ge(c, b)
  {
    assert Compare(c, a) == 0 && Compare(a, b) == 0;
    assert ge(c, a) && ge(a, b);
  }

  /** `getTurkishRadioStations(limit)`: asks the directory for `2 * limit`
      stations, keeps those passing the quality filter, orders them by quality
      and returns the first `limit`. */
  function TurkishStations(limit: nat, directory: nat -> Fetch): (r: Result<seq<Station>>)
    ensures r.Success? <==> Body(directory(2 * limit)).Success?
    ensures r.Success? ==> |r.value| <= limit
    ensures r.Success? ==> forall i :: 0 <= i < |r.value| ==> PassesQuality(r.value[i])
    ensures r.Success? ==> forall i :: 0 <= i < |r.value| ==> r.value[i] in directory(2 * limit).body
    ensures r.Success? ==> SortedBy(r.value, QualityBefore)
    ensures r.Success? ==> |r.value| == if |Filter(directory(2 * limit).body, PassesQuality)| < limit
                                       then |Filter(directory(2 * limit).body, PassesQuality)| else limit
    ensures r.Success? ==> multiset(r.value) <= multiset(Filter(directory(2 * limit).body, PassesQuality))
    ensures r.Success? ==> forall i, s :: 0 <= i < |r.value|
                             && s in multiset(Filter(directory(2 * limit).body, PassesQuality)) - multiset(r.value)
                             ==> QualityBefore(r.value[i], s)
  {
    match Body(directory(2 * limit))
    case Failure => Failure
    case Success(stations) =>
      var kept := Filter(stations, PassesQuality);
      QualityBeforeIsPreorder();
      var sorted := Sort(kept, QualityBefore);
      assert |sorted| == |kept| by { assert |multiset(sorted)| == |multiset(kept)|; }
      var n := if |sorted| < limit then |sorted| else limit;
      var r := sorted[..n];
      PrefixIsBest(sorted, n, QualityBefore);
      forall i | 0 <= i < |r|
        ensures PassesQuality(r[i]) && r[i] in stations
      {
        assert r[i] in multiset(kept);
        assert r[i] in kept;
        SubseqMember(kept, stations, r[i]);
      }
      Success(r)
  }

  /** Keeps the stations whose last check passed and that have a resolved URL. */
  predicate Playable(s: Station) {
    s.lastCheckOk == 1 && s.urlResolved != ""
  }

  /** The filter shared by the search, language and popular lists. */
  function PlayableOnly(f: Fetch): (r: Result<seq<Station>>)
    ensures r.Success? <==> f.Response? && f.ok
    ensures r.Success? ==> r.value == Filter(f.body, Playable)
    ensures r.Success? ==> forall s :: s in f.body ==> (s in r.value <==> Playable(s))
  {
    match Body(f)
    case Failure => Failure
    case Success(stations) =>
      var r := Filter(stations, Playable);
      forall s | s in r ensures s in stations {
        SubseqMember(r, stations, s);
      }
      Success(r)
  }

  /** `searchStations(query, country)`: the playable stations of the answer. */
  function SearchStations(f: Fetch): (r: Result<seq<Station>>)
    ensures r.Success? <==> f.Response? && f.ok
    ensures r.Success? ==> IsSubseq(r.value, f.body)
    ensures r.Success? ==> forall s :: s in f.body ==> (s in r.value <==> Playable(s))
  {
    PlayableOnly(f)
  }

  /** `getStationsByLanguage(language)`: asks the directory for 200 stations in
      the language and keeps the playable ones. */
  function StationsByLanguage(language: string, byLanguage: (string, nat) -> Fetch): (r: Result<seq<Station>>)
    ensures r.Success? <==> Body(byLanguage(language, 200)).Success?
    ensures r.Success? ==> IsSubseq(r.value, byLanguage(language, 200).body)
    ensures r.Success? ==> forall s :: s in byLanguage(language, 200).body ==> (s in r.value <==> Playable(s))
  {
    PlayableOnly(byLanguage(language, 200))
  }

  /** `getPopularStations(limit)`: asks for the `limit` most voted stations and
      keeps the playable ones, so it never returns more than the directory
      sent. */
  function PopularStations(limit: nat, topVote: nat -> Fetch): (r: Result<seq<Station>>)
    ensures r.Success? <==> Body(topVote(limit)).Success?
    ensures r.Success? ==> IsSubseq(r.value, topVote(limit).body) && |r.value| <= |topVote(limit).body|
    ensures r.Success? ==> forall s :: s in topVote(limit).body ==> (s in r.value <==> Playable(s))
  {
    PlayableOnly(topVote(limit))
  }

  /** `getStationByUuid`: the first station of the answer; `null` for an empty
      answer and for every error. */
  function StationByUuid(f: Fetch): (r: Option<Station>)
    ensures r.Some? <==> f.Response? && f.ok && |f.body| > 0
    ensures r.Some? ==> r.value == f.body[0]
  {
    match Body(f)
    case Success(stations) => if |stations| > 0 then Some(stations[0]) else None
    case Failure => None
  }

  /** How a promise settles. */
  datatype Settlement = Resolved | Rejected

  /** `clickStation`: the statistics ping swallows every error. */
  function ClickStation(f: Fetch): (r: Settlement)
    ensures r == Resolved
  {
    match f
    case Response(_, _, _) => Resolved
    case NetworkError => Resolved
  }
}
