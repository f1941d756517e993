/** components/RadioList.tsx: the same-station re-entry lock in front of
    `playStation`, and the search filter. Time is milliseconds as a natural
    number; every event carries the time it happens at. */
module RadioList {
  import opened Wrappers
  import opened Types
  import opened Seqs
  import opened Text

  /** The lock ref (`""` when free), the timeout the `playTimeout` ref points at,
      and earlier timeouts whose ref was overwritten before they fired; each
      timeout is the time it clears the lock. */
  datatype ListLock = ListLock(held: string, pending: Option<nat>, orphans: set<nat>)

  const InitialLock: ListLock := ListLock("", None, {})

  /** The lock-clearing timeouts due by `now` fire. */
  function Fire(l: ListLock, now: nat): (r: ListLock)
    ensures (exists t :: t in l.orphans && t <= now) || (l.pending.Some? && l.pending.value <= now)
            ==> r.held == ""
    ensures (forall t :: t in l.orphans ==> t > now) && (l.pending.None? || l.pending.value > now) ==> r == l
    ensures forall t :: t in r.orphans ==> t > now
    ensures r.pending.Some? ==> r.pending.value > now
  {
    var due := (exists t :: t in l.orphans && t <= now) || (l.pending.Some? && l.pending.value <= now);
    var orphans := set t | t in l.orphans && t > now;
    var pending := if l.pending.Some? && l.pending.value <= now then None else l.pending;
    ListLock(if due then "" else l.held, pending, orphans)
  }

  /** What a press asks of the player. */
  datatype ListCommand = Ignore | Play(station: Station)

  /** `handleStationPress`: a press on the uuid the lock holds is ignored;
      any other cancels the pending clear, takes the lock and plays. */
  function Press(l: ListLock, station: Station, now: nat): (r: (ListLock, ListCommand))
    ensures Fire(l, now).held == station.uuid ==> r == (Fire(l, now), Ignore)
    ensures Fire(l, now).held != station.uuid
            ==> r.1 == Play(station) && r.0 == ListLock(station.uuid, None, Fire(l, now).orphans)
  {
    var f := Fire(l, now);
    if f.held == station.uuid then (f, Ignore)
    else (ListLock(station.uuid, None, f.orphans), Play(station))
  }

  /** The `finally` after `playStation` settles: a new timeout clears the lock a
      second later; one the ref pointed at keeps running, unreferenced. */
  function Settle(l: ListLock, now: nat): (r: ListLock)
    ensures r.held == Fire(l, now).held
    ensures r.pending == Some(now + 1000)
    ensures Fire(l, now).pending.Some? ==> Fire(l, now).pending.value in r.orphans
  {
    var f := Fire(l, now);
    var orphans := if f.pending.Some? then f.orphans + {f.pending.value} else f.orphans;
    ListLock(f.held, Some(now + 1000), orphans)
  }

  /** A second after a play settles, the same station can be pressed again. */
  lemma LockClearsAfterOneSecond(l: ListLock, station: Station, settled: nat, later: nat)
    requires later >= settled + 1000
    ensures Fire(Settle(l, settled), later).held == ""
    ensures Press(Settle(l, settled), station, later).1 == Play(station) || station.uuid == ""
  {
  }

  /** Pressing a station, then the same station again before its play settles, is
      ignored, unless a timeout orphaned by an earlier overlap fires in between. */
  lemma RepeatPressIgnored(l: ListLock, station: Station, t1: nat, t2: nat)
    requires t1 <= t2
    requires forall t :: t in l.orphans ==> t > t2
    requires Press(l, station, t1).1.Play?
    ensures Press(Press(l, station, t1).0, station, t2).1 == Ignore
  {
  }

  /** Two overlapping plays of A then B both settle; the timeout of A, whose ref
      was overwritten, still clears the lock B took later, and the one for B
      clears nothing new: a second press of B is accepted one second after A
      settled rather than after B did. */
  lemma OrphanedTimeoutReleasesLaterLock(a: Station, b: Station)
    requires a.uuid == "A" && b.uuid == "B"
    ensures var l1 := Press(InitialLock, a, 0).0;
            var l2 := Press(l1, b, 10).0;
            var l3 := Settle(l2, 100);
            var l4 := Settle(l3, 900);
            l4.held == "B" && Press(l4, b, 1100).1 == Play(b)
  {
    var l1 := Press(InitialLock, a, 0).0;
    var l2 := Press(l1, b, 10).0;
    assert l2 == ListLock("B", None, {});
    var l3 := Settle(l2, 100);
    assert l3 == ListLock("B", Some(1100), {});
    var l4 := Settle(l3, 900);
    assert l4 == ListLock("B", Some(1900), {1100});
    assert Fire(l4, 1100).held == "";
  }

  /** The lock starts free as the empty string, so a station whose uuid is empty
      is never played from the list. */
  lemma EmptyUuidNeverPlays(l: ListLock, station: Station, now: nat)
    requires station.uuid == "" && l.held == ""
    ensures Press(l, station, now).1 == Ignore
  {
  }

  /** The search text after `toLowerCase` and the six Turkish-letter replacements. */
  function NormalizeQuery(q: string): string {
    Fold(Lower(q))
  }

  /** The fields a query is matched against, in the source's order; the bitrate
      enters as its decimal text. */
  function Fields(s: Station): seq<string> {
    [s.name, s.tags, s.country, s.codec, IntToString(s.bitrate), s.homepage, s.state, s.language]
  }

  /** Some field, lower-cased only, contains the normalised query. */
  predicate Matches(s: Station, normQuery: string) {
    exists i :: 0 <= i < |Fields(s)| && Contains(Lower(Fields(s)[i]), normQuery)
  }

  function MatchesQuery(normQuery: string): Station -> bool {
    s => Matches(s, normQuery)
  }

  /** The search effect: a blank query shows every station; otherwise the
      stations matching the normalised (untrimmed) query, in order. */
  function FilterStations(stations: seq<Station>, query: string): (r: seq<Station>)
    ensures Trim(query) == [] ==> r == stations
    ensures Trim(query) != [] ==> forall s :: s in stations ==> (s in r <==> Matches(s, NormalizeQuery(query)))
    ensures IsSubseq(r, stations)
  {
    if Trim(query) == [] then
      FilterAllPass(stations, (s: Station) => true);
      assert IsSubseq(Filter(stations, (s: Station) => true), stations);
      stations
    else
      var r := Filter(stations, MatchesQuery(NormalizeQuery(query)));
      forall s | s in r ensures Matches(s, NormalizeQuery(query)) {
        var i :| 0 <= i < |r| && r[i] == s;
      }
      r
  }

  /** A query made only of whitespace leaves the list as it is. */
  lemma BlankQueryKeepsAll(stations: seq<Station>, query: string)
    requires forall i :: 0 <= i < |query| ==> IsSpace(query[i])
    ensures FilterStations(stations, query) == stations
  {
    TrimEmptyIffBlank(query);
  }

  /** The query is folded but the fields are not: a station named "ü" is not
      found by the query "ü", whose normal form is "u". */
  lemma QueryFoldedFieldsNot(s: Station)
    requires s.name == "\U{FC}" && s.tags == "" && s.country == "" && s.codec == ""
    requires s.bitrate == 0 && s.homepage == "" && s.state == "" && s.language == ""
    ensures NormalizeQuery("\U{FC}") == "u"
    ensures FilterStations([s], "\U{FC}") == []
  {
    assert Lower("\U{FC}") == "\U{FC}";
    assert NormalizeQuery("\U{FC}") == "u";
    assert IntToString(0) == "0";
    assert Lower("0") == "0";
    assert Lower("") == "";
    assert !Contains("\U{FC}", "u") by {
      assert !IsPrefix("u", "\U{FC}");
      assert "\U{FC}"[1..] == "";
    }
    assert !Contains("0", "u") by {
      assert !IsPrefix("u", "0");
      assert "0"[1..] == "";
    }
    assert !Contains("", "u");
    assert forall i :: 0 <= i < |Fields(s)| ==> Fields(s)[i] in {"\U{FC}", "", "0"};
    assert !Matches(s, "u");
    assert Trim("\U{FC}") != [] by {
      TrimEmptyIffBlank("\U{FC}");
    }
    assert [s][1..] == [];
  }

  /** Corrected matching: fields are normalised exactly like the query. */
  predicate FoldedMatches(s: Station, normQuery: string) {
    exists i :: 0 <= i < |Fields(s)| && Contains(NormalizeQuery(Fields(s)[i]), normQuery)
  }

  function FoldedMatchesQuery(normQuery: string): Station -> bool {
    s => FoldedMatches(s, normQuery)
  }

  /** The search effect with fields normalised like the query. */
  function FilterStationsFolded(stations: seq<Station>, query: string): (r: seq<Station>)
    ensures Trim(query) == [] ==> r == stations
    ensures Trim(query) != [] ==> forall s :: s in stations ==> (s in r <==> FoldedMatches(s, NormalizeQuery(query)))
    ensures forall s :: s in stations && Contains(s.name, query) ==> s in r
  {
    if Trim(query) == [] then stations
    else
      var r := Filter(stations, FoldedMatchesQuery(NormalizeQuery(query)));
      forall s | s in r ensures FoldedMatches(s, NormalizeQuery(query)) {
        var i :| 0 <= i < |r| && r[i] == s;
      }
      forall s | s in stations && Contains(s.name, query)
        ensures s in r
      {
        NormalizePreservesContains(s.name, query);
        assert Fields(s)[0] == s.name;
      }
      r
  }

  /** Normalisation maps substrings to substrings. */
  lemma NormalizePreservesContains(hay: string, needle: string)
    requires Contains(hay, needle)
    ensures Contains(NormalizeQuery(hay), NormalizeQuery(needle))
  {
    ContainsIffSplit(hay, needle);
    var a, b :| hay == a + needle + b;
    LowerAppend(a + needle, b);
    LowerAppend(a, needle);
    FoldAppend(Lower(a) + Lower(needle), Lower(b));
    FoldAppend(Lower(a), Lower(needle));
    assert NormalizeQuery(hay) == Fold(Lower(a)) + NormalizeQuery(needle) + Fold(Lower(b));
    ContainsIffSplit(NormalizeQuery(hay), NormalizeQuery(needle));
  }
}
