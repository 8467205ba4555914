/**
 * The records the controller keeps in `localStorage`, with JSON text abstracted to the
 * value `JSON.parse` makes of it, and the functions that read them back.
 */
module Storage {
  import opened Wrappers
  import opened BookIds

  /** An ISO-8601 timestamp from `new Date().toISOString()`, treated as an opaque value. */
  type Timestamp = string

  /** `currentSettings`. */
  datatype Settings = Settings(
    fontSize: int,
    fontFamily: string,
    textAlign: string,
    readingMode: string,
    theme: string,
    brightness: real)

  /** The constructor's defaults. */
  const Defaults := Settings(18, "Inter", "justify", "scroll", "dark", 1.0)

  /** A settings object as found in storage: every field may be missing. */
  datatype SavedSettings = SavedSettings(
    fontSize: Option<int>,
    fontFamily: Option<string>,
    textAlign: Option<string>,
    readingMode: Option<string>,
    theme: Option<string>,
    brightness: Option<real>,
    timestamp: Option<Timestamp>)

  /** A progress record; `manualSave` is true only on records `manualSaveProgress` wrote (the automatic save omits the flag). */
  datatype ProgressRecord = ProgressRecord(
    bookId: string,
    progress: int,
    scrollPosition: real,
    readingMode: string,
    timestamp: Timestamp,
    manualSave: bool)

  /** What `JSON.parse` makes of a stored text that parses. */
  datatype Document =
    | Null                                      // the text `null`
    | Scalar                                    // a number, string, boolean or array
    | SettingsObject(saved: SavedSettings)      // an object with (some of) the settings fields
    | ProgressObject(record: ProgressRecord)    // an object with the progress fields

  /** A stored string: text `JSON.parse` accepts, or text it throws on (the empty string included). */
  datatype Text = Json(doc: Document) | Malformed

  /** `localStorage`. */
  type Store = map<string, Text>

  /** `JSON.parse(localStorage.getItem(key))`: None for a missing key or a parse error. */
  function Parse(store: Store, key: string): (d: Option<Document>)
    ensures d.Some? <==> key in store && store[key].Json?
  {
    if key in store && store[key].Json? then Some(store[key].doc) else None
  }

  /**
   * The object `saveSettings` writes: every settings field plus a timestamp, so that
   * overlaying it on any settings gives exactly `s`.
   */
  function SettingsText(s: Settings, now: Timestamp): (t: Text)
    ensures t.Json? && t.doc.SettingsObject? && t.doc.saved.timestamp == Some(now)
    ensures forall current :: Overlay(current, t.doc) == s
  {
    Json(SettingsObject(SavedSettings(Some(s.fontSize), Some(s.fontFamily), Some(s.textAlign),
                                      Some(s.readingMode), Some(s.theme), Some(s.brightness), Some(now))))
  }

  /**
   * `{...current, ...parsed}` guarded by `if (settings)`: each field present in the parsed
   * object replaces the current one, each absent field keeps its current value.
   */
  function Overlay(current: Settings, doc: Document): (r: Settings)
    ensures doc.SettingsObject? ==>
              && (doc.saved.fontSize.None? ==> r.fontSize == current.fontSize)
              && (doc.saved.fontFamily.None? ==> r.fontFamily == current.fontFamily)
              && (doc.saved.textAlign.None? ==> r.textAlign == current.textAlign)
              && (doc.saved.readingMode.None? ==> r.readingMode == current.readingMode)
              && (doc.saved.theme.None? ==> r.theme == current.theme)
              && (doc.saved.brightness.None? ==> r.brightness == current.brightness)
    ensures doc.SettingsObject? ==>
              && (doc.saved.fontSize.Some? ==> r.fontSize == doc.saved.fontSize.value)
              && (doc.saved.fontFamily.Some? ==> r.fontFamily == doc.saved.fontFamily.value)
              && (doc.saved.textAlign.Some? ==> r.textAlign == doc.saved.textAlign.value)
              && (doc.saved.readingMode.Some? ==> r.readingMode == doc.saved.readingMode.value)
              && (doc.saved.theme.Some? ==> r.theme == doc.saved.theme.value)
              && (doc.saved.brightness.Some? ==> r.brightness == doc.saved.brightness.value)
    ensures doc.ProgressObject? ==> r == current.(readingMode := doc.record.readingMode)
    ensures doc.Null? || doc.Scalar? ==> r == current
  {
    match doc
    case Null => current
    case Scalar => current
    case SettingsObject(saved) =>
      Settings(saved.fontSize.GetOr(current.fontSize), saved.fontFamily.GetOr(current.fontFamily),
               saved.textAlign.GetOr(current.textAlign), saved.readingMode.GetOr(current.readingMode),
               saved.theme.GetOr(current.theme), saved.brightness.GetOr(current.brightness))
    case ProgressObject(record) =>
      // a progress-shaped object shares only `readingMode` with the settings
      current.(readingMode := record.readingMode)
  }

  /** The settings `loadSettings` leaves: the stored settings overlaid on the current ones. */
  function LoadedSettings(current: Settings, store: Store): (r: Settings)
    ensures Parse(store, SettingsKey).None? ==> r == current
  {
    match Parse(store, SettingsKey)
    case None => current
    case Some(doc) => Overlay(current, doc)
  }

  /** `loadReadingProgress()` for a book id: `data.progress || 0`, and 0 on any failure. */
  function ReadProgress(store: Store, bookId: string): (p: int)
    ensures Parse(store, ProgressKey(bookId)).None? ==> p == 0
    ensures var d := Parse(store, ProgressKey(bookId));
      d.Some? && d.value.ProgressObject? ==> p == d.value.record.progress
    ensures var d := Parse(store, ProgressKey(bookId));
      !(d.Some? && d.value.ProgressObject?) ==> p == 0
  {
    match Parse(store, ProgressKey(bookId))
    case Some(ProgressObject(record)) => record.progress
    case _ => 0   // `null.progress` throws and is caught; other values have no `progress`
  }

  /** `loadSavedProgressData()` for a book id: the parsed value, None where the source returns null. */
  function SavedProgressData(store: Store, bookId: string): (d: Option<Document>)
    ensures d.Some? ==> d.value != Null && d == Parse(store, ProgressKey(bookId))
    ensures d.None? <==> Parse(store, ProgressKey(bookId)) in {None, Some(Null)}
  {
    match Parse(store, ProgressKey(bookId))
    case Some(Null) => None
    case other => other
  }

  /** Settings saved with `saveSettings` load back field for field, whatever the settings before. */
  lemma SettingsRoundTrip(current: Settings, s: Settings, now: Timestamp, store: Store)
    ensures LoadedSettings(current, store[SettingsKey := SettingsText(s, now)]) == s
  {
  }

  /** A progress record written for a book is what `loadReadingProgress` reads back for it. */
  lemma ProgressRoundTrip(store: Store, bookId: string, record: ProgressRecord)
    ensures ReadProgress(store[ProgressKey(bookId) := Json(ProgressObject(record))], bookId) == record.progress
  {
  }

  /** Writing a book's progress changes neither the stored settings nor what `loadSettings` makes of them. */
  lemma ProgressWriteKeepsSettings(current: Settings, store: Store, bookId: string, t: Text)
    ensures Parse(store[ProgressKey(bookId) := t], SettingsKey) == Parse(store, SettingsKey)
    ensures LoadedSettings(current, store[ProgressKey(bookId) := t]) == LoadedSettings(current, store)
  {
  }

  /** Writing the settings changes no book's progress. */
  lemma SettingsWriteKeepsProgress(store: Store, bookId: string, t: Text)
    ensures ReadProgress(store[SettingsKey := t], bookId) == ReadProgress(store, bookId)
  {
  }

  /** Writing one book's progress leaves every other book's progress as it was. */
  lemma ProgressWritesAreIndependent(store: Store, bookId: string, other: string, t: Text)
    requires other != bookId
    ensures ReadProgress(store[ProgressKey(bookId) := t], other) == ReadProgress(store, other)
  {
    if ProgressKey(bookId) == ProgressKey(other) {
      ProgressKeyInjective(bookId, other);
    }
  }
}
