/** The favorites and settings persistence of services/storageService.ts over
    an abstract key-value store. Each key is either absent (`None`) or holds the
    value last written; JSON encoding round-trips as identity. Every storage call
    can fail, and the service catches every failure. */
module StorageService {
  import opened Wrappers
  import opened Types
  import opened Seqs

  /** The two keys the service uses: `radio_favorites` and `app_settings`. */
  datatype Store = Store(favorites: Option<seq<Station>>, settings: Option<AppSettings>)

  const EmptyStore: Store := Store(None, None)

  /** Returned whenever no settings can be read. */
  const DefaultSettings: AppSettings := AppSettings(Tr, 0.8, false)

  /** `getFavorites`: the stored list, or `[]` when the key is absent or the
      read fails (`readOk` false). */
  function GetFavorites(st: Store, readOk: bool): (r: seq<Station>)
    ensures readOk && st.favorites.Some? ==> r == st.favorites.value
    ensures !readOk || st.favorites.None? ==> r == []
  {
    if readOk && st.favorites.Some? then st.favorites.value else []
  }

  /** `addToFavorites`: appends the station when no favorite read back has its
      uuid; a failed read counts as an empty list, so the write then replaces the
      stored list by the station alone. */
  function AddToFavorites(st: Store, station: Station, readOk: bool, writeOk: bool): (r: Store)
    ensures r.settings == st.settings
    ensures !writeOk ==> r == st
    ensures readOk && HasUuid(GetFavorites(st, true), station.uuid) ==> r == st
    ensures readOk && writeOk && !HasUuid(GetFavorites(st, true), station.uuid)
            ==> r.favorites == Some(GetFavorites(st, true) + [station])
    ensures !readOk && writeOk ==> r.favorites == Some([station])
  {
    var favorites := GetFavorites(st, readOk);
    assert favorites == [] ==> favorites + [station] == [station];
    if HasUuid(favorites, station.uuid) then st
    else if writeOk then st.(favorites := Some(favorites + [station]))
    else st
  }

  /** `removeFromFavorites`: writes back the list read, minus every entry with
      the uuid. */
  function RemoveFromFavorites(st: Store, uuid: string, readOk: bool, writeOk: bool): (r: Store)
    ensures r.settings == st.settings
    ensures !writeOk ==> r == st
    ensures writeOk ==> r.favorites == Some(Without(GetFavorites(st, readOk), uuid))
  {
    if writeOk then st.(favorites := Some(Without(GetFavorites(st, readOk), uuid))) else st
  }

  /** `isFavorite`: some favorite read back carries the uuid. */
  function IsFavorite(st: Store, uuid: string, readOk: bool): (r: bool)
    ensures r <==> readOk && st.favorites.Some? && exists s :: s in st.favorites.value && s.uuid == uuid
  {
    var favorites := GetFavorites(st, readOk);
    assert HasUuid(favorites, uuid) <==> exists s :: s in favorites && s.uuid == uuid by {
      if exists s :: s in favorites && s.uuid == uuid {
        var s :| s in favorites && s.uuid == uuid;
        var i :| 0 <= i < |favorites| && favorites[i] == s;
      }
    }
    HasUuid(favorites, uuid)
  }

  /** `getSettings`: the stored settings, or the defaults when absent or unreadable. */
  function GetSettings(st: Store, readOk: bool): (r: AppSettings)
    ensures readOk && st.settings.Some? ==> r == st.settings.value
    ensures !readOk || st.settings.None? ==> r == DefaultSettings
  {
    if readOk && st.settings.Some? then st.settings.value else DefaultSettings
  }

  /** `saveSettings`: overwrites the whole settings record. */
  function SaveSettings(st: Store, settings: AppSettings, writeOk: bool): (r: Store)
    ensures r.favorites == st.favorites
    ensures writeOk ==> GetSettings(r, true) == settings
    ensures !writeOk ==> r == st
  {
    if writeOk then st.(settings := Some(settings)) else st
  }

  /** `clearAll`: removes both keys. */
  function ClearAll(st: Store, ok: bool): (r: Store)
    ensures ok ==> forall readOk :: GetFavorites(r, readOk) == [] && GetSettings(r, readOk) == DefaultSettings
    ensures !ok ==> r == st
  {
    if ok then EmptyStore else st
  }

  /** Adding keeps stored uuids unique, whichever calls fail. */
  lemma AddKeepsUnique(st: Store, station: Station, readOk: bool, writeOk: bool)
    requires st.favorites.Some? ==> UniqueUuids(st.favorites.value)
    ensures var r := AddToFavorites(st, station, readOk, writeOk);
            r.favorites.Some? ==> UniqueUuids(r.favorites.value)
  {
    var favorites := GetFavorites(st, readOk);
    var r := AddToFavorites(st, station, readOk, writeOk);
    if !HasUuid(favorites, station.uuid) && writeOk {
      var xs := favorites + [station];
      forall i, j | 0 <= i < j < |xs| ensures xs[i].uuid != xs[j].uuid {
        if j == |xs| - 1 {
          assert xs[i] == favorites[i];
        } else {
          assert xs[i] == favorites[i] && xs[j] == favorites[j];
        }
      }
    }
  }

  /** After a successful add, the station reads back as a favorite. */
  lemma AddThenIsFavorite(st: Store, station: Station)
    ensures IsFavorite(AddToFavorites(st, station, true, true), station.uuid, true)
  {
    var favorites := GetFavorites(st, true);
    var r := AddToFavorites(st, station, true, true);
    if !HasUuid(favorites, station.uuid) {
      var xs := favorites + [station];
      assert xs[|xs| - 1] == station;
      assert HasUuid(GetFavorites(r, true), station.uuid);
    }
  }

  /** A successful add leaves every other uuid's favorite status as it was. */
  lemma AddKeepsOthers(st: Store, station: Station, other: string)
    requires other != station.uuid
    ensures IsFavorite(AddToFavorites(st, station, true, true), other, true) <==> IsFavorite(st, other, true)
  {
    var favorites := GetFavorites(st, true);
    var r := AddToFavorites(st, station, true, true);
    if !HasUuid(favorites, station.uuid) {
      var xs := favorites + [station];
      if HasUuid(xs, other) {
        var i :| 0 <= i < |xs| && xs[i].uuid == other;
        assert i < |favorites| && favorites[i] == xs[i];
      }
      if HasUuid(favorites, other) {
        var i :| 0 <= i < |favorites| && favorites[i].uuid == other;
        assert xs[i] == favorites[i];
      }
    }
  }

  /** After a successful remove, the uuid no longer reads back as a favorite,
      and every other favorite is still there. */
  lemma RemoveThenNotFavorite(st: Store, uuid: string, other: string)
    requires other != uuid
    ensures var r := RemoveFromFavorites(st, uuid, true, true);
            && !IsFavorite(r, uuid, true)
            && (IsFavorite(r, other, true) <==> IsFavorite(st, other, true))
  {
    var r := RemoveFromFavorites(st, uuid, true, true);
    assert !HasUuid(GetFavorites(r, true), uuid);
  }

  /** Settings saved successfully are read back exactly. */
  lemma SaveThenGetSettings(st: Store, settings: AppSettings)
    ensures GetSettings(SaveSettings(st, settings, true), true) == settings
  {
  }
}
