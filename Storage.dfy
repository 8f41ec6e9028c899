/** The browser's key-value store as both pages use it: two keys, one holding
    the list of keyword/sentence pairs and one holding the speech settings,
    and the functions that read them back with each page's defaults.
    Serialisation is not modelled: a stored entry is the value it parses to,
    the empty text (which the pages treat as absent), or malformed text. */
module Storage {

  /** A keyword and the three-word sentence that goes with it. */
  datatype Pair = Pair(keyword: string, sentence: string)

  /** Speech settings. The numbers are JavaScript numbers in the source; the
      model treats them as exact reals that are only copied through. */
  datatype Settings = Settings(wordDelay: real, repeatCount: real, speechRate: real, speechPitch: real)

  const DefaultSettings := Settings(10.0, 1.0, 0.8, 1.2)

  /** The pair the learner page falls back to when nothing is stored. */
  const SeedPair := Pair("hungry", "I am hungry")

  const SentencesKey := "sentences"
  const SettingsKey := "settings"

  /** What a stored entry holds once read and parsed. */
  datatype Value =
    | EmptyText                         // "" — falsy, so read like an absent key
    | Malformed                         // text the parser rejects
    | PairList(pairs: seq<Pair>)
    | SettingsRecord(settings: Settings)

  /** The store itself: a synchronous map from key to stored entry, shared by
      both pages. */
  class LocalStorage {
    var items: map<string, Value>

    constructor (initial: map<string, Value>)
      ensures items == initial
    {
      items := initial;
    }

    method SetItem(key: string, v: Value)
      modifies this
      ensures items == old(items)[key := v]
    {
      items := items[key := v];
    }

    method RemoveItem(key: string)
      modifies this
      ensures items == old(items) - {key}
    {
      items := items - {key};
    }
  }

  /** Each key holds an entry of its own shape (or no parsed record at all). */
  predicate WellShaped(items: map<string, Value>) {
    && (SentencesKey in items ==> !items[SentencesKey].SettingsRecord?)
    && (SettingsKey in items ==> !items[SettingsKey].PairList?)
  }

  /** The admin page's `loadSentences`: an absent or empty entry reads as the
      empty list; a parse failure is caught and logged and leaves the page's
      `current` list as it was. */
  function AdminSentences(items: map<string, Value>, current: seq<Pair>): (r: seq<Pair>)
    ensures r == current || r == [] || (SentencesKey in items && items[SentencesKey] == PairList(r))
    ensures SentencesKey in items && items[SentencesKey].PairList? ==> r == items[SentencesKey].pairs
  {
    if SentencesKey !in items then []
    else match items[SentencesKey]
      case EmptyText => []
      case PairList(ps) => ps
      case _ => current
  }

  /** The learner page's `getSentences`: an absent or empty entry reads as the
      single seed pair; a parse failure reads as the empty list. */
  function LearnerSentences(items: map<string, Value>): (r: seq<Pair>)
    ensures r == [SeedPair] || r == [] || (SentencesKey in items && items[SentencesKey] == PairList(r))
    ensures SentencesKey in items && items[SentencesKey].PairList? ==> r == items[SentencesKey].pairs
  {
    if SentencesKey !in items then [SeedPair]
    else match items[SentencesKey]
      case EmptyText => [SeedPair]
      case PairList(ps) => ps
      case _ => []
  }

  /** The learner page's `getSettings`: anything but a stored settings record
      reads as the defaults. */
  function StoredSettings(items: map<string, Value>): (r: Settings)
    ensures r == DefaultSettings || (SettingsKey in items && items[SettingsKey] == SettingsRecord(r))
    ensures SettingsKey in items && items[SettingsKey].SettingsRecord? ==> r == items[SettingsKey].settings
  {
    if SettingsKey in items && items[SettingsKey].SettingsRecord? then items[SettingsKey].settings
    else DefaultSettings
  }

  /** Defaults of the three readers for an absent key or a stored empty
      string, and what a malformed entry gives. */
  lemma ReadDefaults(items: map<string, Value>, current: seq<Pair>)
    ensures SentencesKey !in items || items[SentencesKey] == EmptyText ==>
              AdminSentences(items, current) == [] && LearnerSentences(items) == [SeedPair]
    ensures SentencesKey in items && items[SentencesKey] == Malformed ==>
              AdminSentences(items, current) == current && LearnerSentences(items) == []
    ensures SettingsKey !in items || items[SettingsKey] == EmptyText || items[SettingsKey] == Malformed ==>
              StoredSettings(items) == DefaultSettings
  {
  }

  /** Writing a list and reading it back, from either page, gives that list;
      the settings entry is not disturbed. */
  lemma SentencesRoundTrip(items: map<string, Value>, xs: seq<Pair>, current: seq<Pair>)
    ensures AdminSentences(items[SentencesKey := PairList(xs)], current) == xs
    ensures LearnerSentences(items[SentencesKey := PairList(xs)]) == xs
    ensures StoredSettings(items[SentencesKey := PairList(xs)]) == StoredSettings(items)
    ensures WellShaped(items) ==> WellShaped(items[SentencesKey := PairList(xs)])
  {
  }

  /** Writing settings and reading them back gives those settings; the
      sentence entry is not disturbed. */
  lemma SettingsRoundTrip(items: map<string, Value>, s: Settings, current: seq<Pair>)
    ensures StoredSettings(items[SettingsKey := SettingsRecord(s)]) == s
    ensures AdminSentences(items[SettingsKey := SettingsRecord(s)], current) == AdminSentences(items, current)
    ensures LearnerSentences(items[SettingsKey := SettingsRecord(s)]) == LearnerSentences(items)
    ensures WellShaped(items) ==> WellShaped(items[SettingsKey := SettingsRecord(s)])
  {
  }

  /** After both keys are removed the admin page reads an empty list, the
      learner page reads the seed pair, and both read the default settings. */
  lemma ClearedStore(items: map<string, Value>, current: seq<Pair>)
    ensures AdminSentences(items - {SentencesKey, SettingsKey}, current) == []
    ensures LearnerSentences(items - {SentencesKey, SettingsKey}) == [SeedPair]
    ensures StoredSettings(items - {SentencesKey, SettingsKey}) == DefaultSettings
    ensures WellShaped(items) ==> WellShaped(items - {SentencesKey, SettingsKey})
  {
  }
}
