/** The browser key-value store and the helpers over it: the default
    preferences, the merge of stored preferences over those defaults, the
    generic read with a default, and the writes, whose failures are
    swallowed. Stored text is modelled after `JSON.parse`: an entry is empty
    text, text that does not parse, or a parsed value. */
module Storage {
  import opened Types

  const UserPreferencesKey: string := "quiz-app-preferences"
  const SavedQuizzesKey: string := "quiz-app-saved-quizzes"
  const QuizHistoryKey: string := "quiz-app-history"
  const LastGeneratorConfigKey: string := "quiz-app-last-generator-config"

  const DefaultPreferences: UserPreferences :=
    UserPreferences(30, false, Depois, Light, false, false)

  /** A `Partial<UserPreferences>`: `None` is a field the object does not have. */
  datatype PartialPreferences = PartialPreferences(
    timePerQuestion: Option<int>,
    restartOnError: Option<bool>,
    showExplanations: Option<ExplanationMode>,
    theme: Option<Theme>,
    shuffleQuestions: Option<bool>,
    shuffleOptions: Option<bool>)

  const NoPreferences: PartialPreferences := PartialPreferences(None, None, None, None, None, None)

  /** Every field present. */
  function Whole(p: UserPreferences): PartialPreferences {
    PartialPreferences(Some(p.timePerQuestion), Some(p.restartOnError), Some(p.showExplanations),
                       Some(p.theme), Some(p.shuffleQuestions), Some(p.shuffleOptions))
  }

  function Pick<T>(o: Option<T>, d: T): T {
    if o.Some? then o.value else d
  }

  /** `{ ...base, ...p }`: the fields `p` has, and `base` for the others. */
  function Merge(base: UserPreferences, p: PartialPreferences): (r: UserPreferences)
    ensures p.timePerQuestion.Some? ==> r.timePerQuestion == p.timePerQuestion.value
    ensures p.timePerQuestion.None? ==> r.timePerQuestion == base.timePerQuestion
    ensures p.restartOnError.Some? ==> r.restartOnError == p.restartOnError.value
    ensures p.restartOnError.None? ==> r.restartOnError == base.restartOnError
    ensures p.showExplanations.Some? ==> r.showExplanations == p.showExplanations.value
    ensures p.showExplanations.None? ==> r.showExplanations == base.showExplanations
    ensures p.theme.Some? ==> r.theme == p.theme.value
    ensures p.theme.None? ==> r.theme == base.theme
    ensures p.shuffleQuestions.Some? ==> r.shuffleQuestions == p.shuffleQuestions.value
    ensures p.shuffleQuestions.None? ==> r.shuffleQuestions == base.shuffleQuestions
    ensures p.shuffleOptions.Some? ==> r.shuffleOptions == p.shuffleOptions.value
    ensures p.shuffleOptions.None? ==> r.shuffleOptions == base.shuffleOptions
  {
    UserPreferences(
      Pick(p.timePerQuestion, base.timePerQuestion),
      Pick(p.restartOnError, base.restartOnError),
      Pick(p.showExplanations, base.showExplanations),
      Pick(p.theme, base.theme),
      Pick(p.shuffleQuestions, base.shuffleQuestions),
      Pick(p.shuffleOptions, base.shuffleOptions))
  }

  /** `{ ...p, ...q }` on two partials. */
  function Combine(p: PartialPreferences, q: PartialPreferences): PartialPreferences {
    PartialPreferences(
      if q.timePerQuestion.Some? then q.timePerQuestion else p.timePerQuestion,
      if q.restartOnError.Some? then q.restartOnError else p.restartOnError,
      if q.showExplanations.Some? then q.showExplanations else p.showExplanations,
      if q.theme.Some? then q.theme else p.theme,
      if q.shuffleQuestions.Some? then q.shuffleQuestions else p.shuffleQuestions,
      if q.shuffleOptions.Some? then q.shuffleOptions else p.shuffleOptions)
  }

  /** Merging the same partial twice is merging it once. */
  lemma MergeIdempotent(base: UserPreferences, p: PartialPreferences)
    ensures Merge(Merge(base, p), p) == Merge(base, p)
  {
  }

  /** The empty partial changes nothing; a whole one replaces everything. */
  lemma MergeUnits(base: UserPreferences, q: UserPreferences)
    ensures Merge(base, NoPreferences) == base
    ensures Merge(base, Whole(q)) == q
  {
  }

  /** Two merges in a row are one merge of the combined partial. */
  lemma MergeCompose(base: UserPreferences, p: PartialPreferences, q: PartialPreferences)
    ensures Merge(Merge(base, p), q) == Merge(base, Combine(p, q))
  {
  }

  /** The two records the application stores, read back by `JSON.parse`. A
      stored value of any other shape is `OtherValue`; a stored record is
      taken to have the shape its writer gave it. */
  datatype LastGeneratorConfig = LastGeneratorConfig(
    questionCount: Option<int>,
    optionCount: Option<int>,
    difficulty: string)

  const DefaultGeneratorConfig: LastGeneratorConfig := LastGeneratorConfig(None, None, "")

  datatype Value =
    | PreferencesValue(prefs: PartialPreferences)
    | GeneratorConfigValue(config: LastGeneratorConfig)
    | OtherValue

  /** A key's text: empty, unparsable, or a parsed value. A key that is not
      in the map is the `null` `getItem` returns. */
  datatype Entry = EmptyText | Unparsable | Stored(value: Value)

  type Items = map<string, Entry>

  /** `getUserPreferences`: the defaults when nothing usable is stored, and
      otherwise the stored fields over the defaults. An object without any
      preference field merges as the empty partial. */
  function GetUserPreferences(items: Items): (p: UserPreferences)
    ensures (UserPreferencesKey !in items || items[UserPreferencesKey] in {EmptyText, Unparsable})
            ==> p == DefaultPreferences
    ensures (UserPreferencesKey in items && items[UserPreferencesKey].Stored?
             && items[UserPreferencesKey].value.PreferencesValue?)
            ==> p == Merge(DefaultPreferences, items[UserPreferencesKey].value.prefs)
    ensures (UserPreferencesKey in items && items[UserPreferencesKey].Stored?
             && !items[UserPreferencesKey].value.PreferencesValue?)
            ==> p == DefaultPreferences
  {
    if UserPreferencesKey !in items then DefaultPreferences
    else match items[UserPreferencesKey]
      case EmptyText => DefaultPreferences
      case Unparsable => DefaultPreferences
      case Stored(v) =>
        Merge(DefaultPreferences, if v.PreferencesValue? then v.prefs else NoPreferences)
  }

  /** `getFromStorage`: the parsed value, or the default for a missing key,
      empty text or text that does not parse. */
  function GetFromStorage(items: Items, key: string, default: Value): (v: Value)
    ensures key in items && items[key].Stored? ==> v == items[key].value
    ensures !(key in items && items[key].Stored?) ==> v == default
  {
    if key in items && items[key].Stored? then items[key].value else default
  }

  /** `getLastGeneratorConfig`: `getFromStorage` under its key with
      `{null, null, ''}` as the default. The parsed value is returned as it
      is, whatever its shape. */
  function GetLastGeneratorConfig(items: Items): (v: Value)
    ensures LastGeneratorConfigKey in items && items[LastGeneratorConfigKey].Stored? ==>
              v == items[LastGeneratorConfigKey].value
    ensures !(LastGeneratorConfigKey in items && items[LastGeneratorConfigKey].Stored?) ==>
              v == GeneratorConfigValue(DefaultGeneratorConfig)
  {
    GetFromStorage(items, LastGeneratorConfigKey, GeneratorConfigValue(DefaultGeneratorConfig))
  }

  /** A store with nothing in it reads as the defaults: 30 seconds, no
      restart, explanations afterwards, the light theme, no shuffling; and
      the first save of an empty partial writes them. */
  lemma FreshStoreReadsDefaults()
    ensures GetUserPreferences(map[]) == UserPreferences(30, false, Depois, Light, false, false)
    ensures GetUserPreferences(WithPreferencesSaved(map[], NoPreferences)) == UserPreferences(30, false, Depois, Light, false, false)
  {
    ReadAfterSavePreferences(map[], NoPreferences);
  }

  /** The store after a successful `saveUserPreferences(p)`: the current
      preferences with `p` merged in, written whole. */
  function WithPreferencesSaved(items: Items, p: PartialPreferences): Items {
    items[UserPreferencesKey := Stored(PreferencesValue(Whole(Merge(GetUserPreferences(items), p))))]
  }

  /** Reading after saving `p` gives the defaults, overridden by what was
      stored before, overridden by `p`. */
  lemma ReadAfterSavePreferences(items: Items, p: PartialPreferences)
    ensures GetUserPreferences(WithPreferencesSaved(items, p)) == Merge(GetUserPreferences(items), p)
  {
    MergeUnits(DefaultPreferences, Merge(GetUserPreferences(items), p));
  }

  /** A value written under a key is what a read of that key returns, and
      other keys read as before. */
  lemma ReadAfterSave(items: Items, key: string, v: Value, other: string, default: Value)
    ensures GetFromStorage(items[key := Stored(v)], key, default) == v
    ensures other != key ==> GetFromStorage(items[key := Stored(v)], other, default) == GetFromStorage(items, other, default)
  {
  }

  /** The store. `quotaExceeded` stands for whatever makes `setItem` throw;
      a write that throws is caught and leaves the store as it was. */
  class LocalStorage {
    var items: Items
    var quotaExceeded: bool

    constructor (items: Items, quotaExceeded: bool)
      ensures this.items == items && this.quotaExceeded == quotaExceeded
    {
      this.items := items;
      this.quotaExceeded := quotaExceeded;
    }

    /** `saveToStorage(key, data)`. */
    method SaveToStorage(key: string, data: Value)
      modifies this
      ensures quotaExceeded == old(quotaExceeded)
      ensures items == if quotaExceeded then old(items) else old(items)[key := Stored(data)]
    {
      if !quotaExceeded {
        items := items[key := Stored(data)];
      }
    }

    /** `saveUserPreferences(p)`: read, merge `p` over what was read, write. */
    method SaveUserPreferences(p: PartialPreferences)
      modifies this
      ensures quotaExceeded == old(quotaExceeded)
      ensures items == if quotaExceeded then old(items) else WithPreferencesSaved(old(items), p)
    {
      var current := GetUserPreferences(items);
      var updated := Merge(current, p);
      SaveToStorage(UserPreferencesKey, PreferencesValue(Whole(updated)));
    }

    /** `saveLastGeneratorConfig(config)`. */
    method SaveLastGeneratorConfig(config: LastGeneratorConfig)
      modifies this
      ensures quotaExceeded == old(quotaExceeded)
      ensures items == if quotaExceeded then old(items)
                       else old(items)[LastGeneratorConfigKey := Stored(GeneratorConfigValue(config))]
      ensures !quotaExceeded ==> GetLastGeneratorConfig(items) == GeneratorConfigValue(config)
    {
      SaveToStorage(LastGeneratorConfigKey, GeneratorConfigValue(config));
    }
  }
}
