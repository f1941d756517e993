/** components/RadioStationCard.tsx: the press debounce, the highlight of the
    playing station, and the heart button. Time is milliseconds. */
module StationCard {
  import opened Wrappers
  import opened Types
  import opened StorageService
  import opened Playback

  /** The two refs of a card: the last accepted press and the time the
      500 ms processing flag clears (it is set while `now < busyUntil`). */
  datatype CardGate = CardGate(lastPress: int, busyUntil: int)

  /** Both refs start at zero. */
  const InitialGate: CardGate := CardGate(0, 0)

  /** A press is accepted iff it comes at least 300 ms after the last accepted
      one and no processing window is open; an accepted press records its time
      and opens a 500 ms window, during which `onPress` runs once. */
  function PressCard(g: CardGate, now: int): (r: (CardGate, bool))
    ensures r.1 <==> now - g.lastPress >= 300 && now >= g.busyUntil
    ensures !r.1 ==> r.0 == g
    ensures r.1 ==> r.0 == CardGate(now, now + 500)
  {
    if now - g.lastPress < 300 then (g, false)
    else if now < g.busyUntil then (g, false)
    else (CardGate(now, now + 500), true)
  }

  /** Feeds a trace of press times through the gate; the result is the times
      of the accepted presses. */
  function Accepted(g: CardGate, times: seq<int>): (r: seq<int>)
    decreases |times|
  {
    if times == [] then []
    else
      var (g2, ok) := PressCard(g, times[0]);
      (if ok then [times[0]] else []) + Accepted(g2, times[1..])
  }

  /** Every time in `xs` is at least `lo`. */
  predicate AllAtLeast(xs: seq<int>, lo: int) {
    forall i :: 0 <= i < |xs| ==> xs[i] >= lo
  }

  /** Times in a trace never go backwards. */
  predicate Nondecreasing(xs: seq<int>) {
    forall i, j :: 0 <= i < j < |xs| ==> xs[i] <= xs[j]
  }

  /** Accepted presses are those of the trace, at least 500 ms after the last
      accepted one before the trace (when that one's window is still
      recorded), and at least 500 ms apart from each other. */
  lemma {:induction false} AcceptedSpacing(g: CardGate, times: seq<int>)
    requires Nondecreasing(times)
    requires g.busyUntil <= g.lastPress + 500
    ensures var a := Accepted(g, times);
            && AllAtLeast(a, g.lastPress + 300)
            && (forall i :: 0 <= i < |a| ==> a[i] >= g.busyUntil)
            && (forall i :: 0 <= i < |a| - 1 ==> a[i + 1] >= a[i] + 500)
            && (forall i :: 0 <= i < |a| ==> a[i] in times)
    decreases |times|
  {
    if times != [] {
      var (g2, ok) := PressCard(g, times[0]);
      var tail := times[1..];
      assert Nondecreasing(tail);
      AcceptedSpacing(g2, tail);
      var rest := Accepted(g2, tail);
      var a := Accepted(g, times);
      assert a == (if ok then [times[0]] else []) + rest;
      forall i | 0 <= i < |rest| ensures rest[i] in times {
        assert rest[i] in tail;
      }
      if ok {
        assert g2 == CardGate(times[0], times[0] + 500);
        assert a[1..] == rest;
      }
    }
  }

  /** The card is highlighted iff the playing station has the card's uuid. */
  predicate IsCurrentStation(pb: PlaybackState, station: Station) {
    pb.currentStation.Some? && pb.currentStation.value.uuid == station.uuid
  }

  /** Pressing a card highlights exactly the cards with its uuid, from the
      moment the play starts whether or not it loads; a pause keeps the
      highlight and a stop that goes through clears every card. */
  lemma HighlightFollowsPlayback(w: World, station: Station, card: Station, pauseOk: bool, unloadOk: bool, loadOk: bool)
    ensures IsCurrentStation(Playback.PlayBegin(w, station).0.state.playbackState, card) <==> card.uuid == station.uuid
    ensures IsCurrentStation(PlayStation(w, station, unloadOk, loadOk).state.playbackState, card) <==> card.uuid == station.uuid
    ensures IsCurrentStation(Pause(w, pauseOk, unloadOk).state.playbackState, card)
            <==> IsCurrentStation(w.state.playbackState, card)
    ensures w.state.sound.None? || unloadOk ==> !IsCurrentStation(Stop(w, true, unloadOk).state.playbackState, card)
  {
  }

  /** The heart button: remove the station from favorites if the context
      lists it, add it otherwise; the context reloads the slice afterwards. */
  function ToggleFavorite(w: World, station: Station, readOk: bool, writeOk: bool, reloadOk: bool): (r: World)
    ensures Playback.IsFavorite(w.state, station.uuid)
            ==> r == RemoveFavorite(w, station.uuid, readOk, writeOk, reloadOk)
    ensures !Playback.IsFavorite(w.state, station.uuid)
            ==> r == AddFavorite(w, station, readOk, writeOk, reloadOk)
  {
    if Playback.IsFavorite(w.state, station.uuid) then RemoveFavorite(w, station.uuid, readOk, writeOk, reloadOk)
    else AddFavorite(w, station, readOk, writeOk, reloadOk)
  }

  /** The slice shows what the store holds. */
  predicate InSync(w: World) {
    w.state.favorites == GetFavorites(w.store, true)
  }

  /** With every storage call succeeding and the slice in sync with the store,
      the heart flips, the slice stays in sync, and no other station's heart
      changes. */
  lemma ToggleFavoriteFlips(w: World, station: Station, other: string)
    requires InSync(w) && other != station.uuid
    ensures var r := ToggleFavorite(w, station, true, true, true);
            && InSync(r)
            && (Playback.IsFavorite(r.state, station.uuid) <==> !Playback.IsFavorite(w.state, station.uuid))
            && (Playback.IsFavorite(r.state, other) <==> Playback.IsFavorite(w.state, other))
  {
    var r := ToggleFavorite(w, station, true, true, true);
    if Playback.IsFavorite(w.state, station.uuid) {
      RemoveThenNotFavorite(w.store, station.uuid, other);
    } else {
      AddThenIsFavorite(w.store, station);
      AddKeepsOthers(w.store, station, other);
    }
    assert Playback.IsFavorite(r.state, station.uuid) <==> StorageService.IsFavorite(r.store, station.uuid, true);
    assert Playback.IsFavorite(r.state, other) <==> StorageService.IsFavorite(r.store, other, true);
  }
}
