/** contexts/LanguageContext.tsx: the language reducer, its start state, the
    setter that persists the choice, and the startup load. */
module LanguageContext {
  import opened Types
  import opened StorageService

  /** The two translation tables of i18n/translations.ts, by name. */
  datatype Table = TurkishTable | EnglishTable

  function TableFor(l: Language): Table {
    match l
    case Tr => TurkishTable
    case En => EnglishTable
  }

  datatype LanguageState = LanguageState(language: Language, t: Table)

  /** The state is always one of the two consistent pairs. */
  predicate Consistent(s: LanguageState) {
    s.t == TableFor(s.language)
  }

  const InitialLanguage: LanguageState := LanguageState(Tr, TurkishTable)

  /** `SET_LANGUAGE`, the reducer's only action. */
  function SetLanguageAction(s: LanguageState, l: Language): (r: LanguageState)
    ensures r.language == l && Consistent(r)
  {
    LanguageState(l, TableFor(l))
  }

  lemma InitialIsConsistent()
    ensures Consistent(InitialLanguage) && InitialLanguage.language == Tr
  {
  }

  /** `setLanguage`: the state switches first; then the stored settings (the
      defaults if the read fails) are saved with only the language replaced.
      A failed save leaves the state switched. */
  function SetLanguage(s: LanguageState, st: Store, l: Language, readOk: bool, writeOk: bool): (r: (LanguageState, Store))
    ensures r.0 == LanguageState(l, TableFor(l))
    ensures !writeOk ==> r.1 == st
    ensures writeOk ==> GetSettings(r.1, true) == GetSettings(st, readOk).(language := l)
    ensures r.1.favorites == st.favorites
  {
    var settings := GetSettings(st, readOk);
    (SetLanguageAction(s, l), SaveSettings(st, settings.(language := l), writeOk))
  }

  /** The effect run at startup: the stored language, or Turkish by default. */
  function Startup(s: LanguageState, st: Store, readOk: bool): (r: LanguageState)
    ensures Consistent(r)
    ensures readOk && st.settings.Some? ==> r.language == st.settings.value.language
    ensures !readOk || st.settings.None? ==> r.language == Tr
  {
    SetLanguageAction(s, GetSettings(st, readOk).language)
  }

  /** A language saved successfully comes back at the next start, and the
      other settings survive the save. */
  lemma LanguagePersists(s: LanguageState, st: Store, l: Language)
    ensures var (_, st2) := SetLanguage(s, st, l, true, true);
            && Startup(InitialLanguage, st2, true).language == l
            && GetSettings(st2, true).volume == GetSettings(st, true).volume
            && GetSettings(st2, true).autoPlay == GetSettings(st, true).autoPlay
  {
  }

  /** If reading the settings fails, the language save writes the defaults
      for every other setting, dropping a stored volume. */
  lemma FailedReadResetsOtherSettings(s: LanguageState, st: Store, l: Language)
    ensures var (_, st2) := SetLanguage(s, st, l, false, true);
            GetSettings(st2, true) == DefaultSettings.(language := l)
  {
  }
}
