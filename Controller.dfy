/**
 * The `ReadingSettings` controller: the settings record it mutates and the key-value store
 * it persists to. Every DOM effect is left out; the presence and scroll metrics of the
 * `#book-content` container, the current book accessor, the path and the clock are inputs.
 */
module Controller {
  import opened Wrappers
  import opened Numbers
  import opened Progress
  import opened BookIds
  import opened Storage
  import Themes

  const MinFontSize := 14
  const MaxFontSize := 24

  /** `Math.max(14, Math.min(24, n))`: the font size in range nearest to `n`. */
  function ClampFontSize(n: int): (r: int)
    ensures MinFontSize <= r <= MaxFontSize
    ensures MinFontSize <= n <= MaxFontSize ==> r == n
    ensures n < MinFontSize ==> r == MinFontSize
    ensures n > MaxFontSize ==> r == MaxFontSize
  {
    Max(MinFontSize, Min(MaxFontSize, n))
  }

  /**
   * The record `saveReadingProgress` writes (no `manualSave` flag): it holds the percentage
   * and restores the container's position, `0` (nothing) without the container.
   */
  function AutoRecord(bookId: string, percent: int, content: Option<ScrollView>, mode: string, now: Timestamp): (t: Text)
    ensures t.Json? && t.doc.ProgressObject?
    ensures t.doc.record.bookId == bookId && t.doc.record.readingMode == mode && !t.doc.record.manualSave
    ensures t.doc.record.progress == percent
    ensures RestoreTarget(Some(t.doc)) ==
              if content.Some? && content.value.scrollTop != 0.0 then Some(content.value.scrollTop) else None
  {
    var scrollTop := if content.Some? then content.value.scrollTop else 0.0;
    Json(ProgressObject(ProgressRecord(bookId, percent, scrollTop, mode, now, false)))
  }

  /**
   * The record `manualSaveProgress` writes, with `manualSave: true`: it holds the unclamped
   * manual percentage and restores the current position.
   */
  function ManualRecord(bookId: string, v: ScrollView, mode: string, now: Timestamp): (t: Text)
    ensures t.Json? && t.doc.ProgressObject?
    ensures t.doc.record.bookId == bookId && t.doc.record.readingMode == mode && t.doc.record.manualSave
    ensures t.doc.record.progress == ManualProgress(v)
    ensures RestoreTarget(Some(t.doc)) == if v.scrollTop != 0.0 then Some(v.scrollTop) else None
  {
    Json(ProgressObject(ProgressRecord(bookId, ManualProgress(v), v.scrollTop, mode, now, true)))
  }

  /** `savedProgress && savedProgress.scrollPosition`: the position to restore, if any. */
  function RestoreTarget(saved: Option<Document>): (target: Option<real>)
    ensures target.Some? <==> saved.Some? && saved.value.ProgressObject? && saved.value.record.scrollPosition != 0.0
    ensures target.Some? ==> target.value == saved.value.record.scrollPosition
  {
    match saved
    case Some(ProgressObject(record)) => if record.scrollPosition != 0.0 then Some(record.scrollPosition) else None
    case _ => None   // other values have no `scrollPosition`
  }

  class ReadingSettings {
    /** `this.currentSettings`. */
    var settings: Settings
    /** `localStorage`. */
    var storage: Store

    /**
     * `new ReadingSettings()`: the defaults, then `init()`, which loads the stored settings,
     * applies them (`applyTheme` saves them again when the theme is known) and sets up the
     * reading mode, which with the container present overwrites the book's progress record.
     * The bootstrap creates the controller on `DOMContentLoaded`, so `init` takes its
     * immediate branch.
     */
    constructor(store: Store, content: Option<ScrollView>, loc: BookLocation, now: Timestamp)
      ensures settings == LoadedSettings(Defaults, store).(readingMode := "scroll")
      ensures var loaded := LoadedSettings(Defaults, store);
              var applied := if loaded.theme in Themes.Table then store[SettingsKey := SettingsText(loaded, now)] else store;
              storage == if content.None? then applied
                         else applied[ProgressKey(GetBookId(loc)) := AutoRecord(GetBookId(loc), AutoProgress(content.value), content, "scroll", now)]
                                     [SettingsKey := SettingsText(settings, now)]
    {
      settings := Defaults;
      storage := store;
      new;
      LoadSettings();
      ApplyAllSettings(now);
      var _ := SetupReadingMode(content, loc, now);
    }

    /** `saveSettings()`: the settings and a timestamp under `reading-settings`. */
    method SaveSettings(now: Timestamp)
      modifies this
      ensures settings == old(settings)
      ensures storage == old(storage)[SettingsKey := SettingsText(settings, now)]
    {
      storage := storage[SettingsKey := SettingsText(settings, now)];
    }

    /** `loadSettings()`: overlay whatever parses under `reading-settings`; storage is only read. */
    method LoadSettings()
      modifies this
      ensures settings == LoadedSettings(old(settings), storage)
      ensures storage == old(storage)
    {
      var parsed := Parse(storage, SettingsKey);
      if parsed.Some? {
        settings := Overlay(settings, parsed.value);
      }
    }

    /** `changeFontSize(delta)`: the size moves by `delta` within [14, 24]; nothing else changes; saved. */
    method ChangeFontSize(delta: int, now: Timestamp)
      modifies this
      ensures MinFontSize <= settings.fontSize <= MaxFontSize
      ensures settings == old(settings).(fontSize := ClampFontSize(old(settings).fontSize + delta))
      ensures storage == old(storage)[SettingsKey := SettingsText(settings, now)]
    {
      settings := settings.(fontSize := ClampFontSize(settings.fontSize + delta));
      SaveSettings(now);
    }

    /** `changeFontFamily(font)`: any name is accepted; saved. */
    method ChangeFontFamily(font: string, now: Timestamp)
      modifies this
      ensures settings == old(settings).(fontFamily := font)
      ensures storage == old(storage)[SettingsKey := SettingsText(settings, now)]
    {
      settings := settings.(fontFamily := font);
      SaveSettings(now);
    }

    /** `changeBrightness(brightness)`: stored as given, without a bound; saved. */
    method ChangeBrightness(brightness: real, now: Timestamp)
      modifies this
      ensures settings == old(settings).(brightness := brightness)
      ensures storage == old(storage)[SettingsKey := SettingsText(settings, now)]
    {
      settings := settings.(brightness := brightness);
      SaveSettings(now);
    }

    /** `setTextAlign(align)`; saved. */
    method SetTextAlign(align: string, now: Timestamp)
      modifies this
      ensures settings == old(settings).(textAlign := align)
      ensures storage == old(storage)[SettingsKey := SettingsText(settings, now)]
    {
      settings := settings.(textAlign := align);
      SaveSettings(now);
    }

    /**
     * `applyTheme(name)`: a name missing from the theme table changes nothing and writes
     * nothing; a known name becomes the current theme and the settings are saved.
     */
    method ApplyTheme(name: string, now: Timestamp)
      modifies this
      ensures name !in Themes.Table ==> settings == old(settings) && storage == old(storage)
      ensures name in Themes.Table ==> settings == old(settings).(theme := name)
      ensures name in Themes.Table ==> storage == old(storage)[SettingsKey := SettingsText(settings, now)]
    {
      if name !in Themes.Table {
        return;
      }
      settings := settings.(theme := name);
      SaveSettings(now);
    }

    /**
     * `applyAllSettings()`: besides styling, it re-applies the current theme, and
     * `applyTheme` saves the settings when that theme is in the table.
     */
    method ApplyAllSettings(now: Timestamp)
      modifies this
      ensures settings == old(settings)
      ensures storage == if settings.theme in Themes.Table then old(storage)[SettingsKey := SettingsText(settings, now)]
                         else old(storage)
    {
      ApplyTheme(settings.theme, now);
    }

    /**
     * `setReadingMode(mode)`: the mode becomes `"scroll"` whatever `mode` is. Without the
     * content container it stops there, unsaved; with it, scroll mode is set up (which runs
     * `updateReadingProgress` twice) and the settings are saved.
     */
    method SetReadingMode(mode: string, content: Option<ScrollView>, loc: BookLocation, now: Timestamp)
      modifies this
      ensures settings == old(settings).(readingMode := "scroll")
      ensures content.None? ==> storage == old(storage)
      ensures content.Some? ==>
                storage == old(storage)[ProgressKey(GetBookId(loc)) := AutoRecord(GetBookId(loc), AutoProgress(content.value), content, "scroll", now)]
                                       [SettingsKey := SettingsText(settings, now)]
    {
      settings := settings.(readingMode := "scroll");
      if content.None? {
        return;
      }
      // setupScrollMode: setupScrollProgressTracking() updates once, then setupScrollMode again
      var _ := UpdateReadingProgress(content, loc, now);
      var _ := UpdateReadingProgress(content, loc, now);
      SaveSettings(now);
    }

    /** `saveReadingProgress(percent)`: the record under `reading-progress-<bookId>`. */
    method SaveReadingProgress(percent: int, content: Option<ScrollView>, loc: BookLocation, now: Timestamp)
      modifies this
      ensures settings == old(settings)
      ensures storage == old(storage)[ProgressKey(GetBookId(loc)) := AutoRecord(GetBookId(loc), percent, content, settings.readingMode, now)]
    {
      var bookId := GetBookId(loc);
      var scrollTop := if content.Some? then content.value.scrollTop else 0.0;
      var record := ProgressRecord(bookId, percent, scrollTop, settings.readingMode, now, false);
      storage := storage[ProgressKey(bookId) := Json(ProgressObject(record))];
    }

    /**
     * `updateReadingProgress()`: the clamped percentage (0 without the container), which is
     * saved as the book's progress.
     */
    method UpdateReadingProgress(content: Option<ScrollView>, loc: BookLocation, now: Timestamp) returns (percent: int)
      modifies this
      ensures 0 <= percent <= 100
      ensures percent == if content.Some? then AutoProgress(content.value) else 0
      ensures settings == old(settings)
      ensures storage == old(storage)[ProgressKey(GetBookId(loc)) := AutoRecord(GetBookId(loc), percent, content, settings.readingMode, now)]
    {
      percent := 0;
      if content.Some? {
        percent := AutoProgress(content.value);
      }
      SaveReadingProgress(percent, content, loc, now);
    }

    /**
     * `manualSaveProgress()`: without the container nothing is written; with it, the
     * unclamped percentage and the scroll position are saved with `manualSave: true`.
     */
    method ManualSaveProgress(content: Option<ScrollView>, loc: BookLocation, now: Timestamp)
      modifies this
      ensures settings == old(settings)
      ensures content.None? ==> storage == old(storage)
      ensures content.Some? ==>
                storage == old(storage)[ProgressKey(GetBookId(loc)) := ManualRecord(GetBookId(loc), content.value, settings.readingMode, now)]
    {
      var bookId := GetBookId(loc);
      if content.Some? {
        var v := content.value;
        var record := ProgressRecord(bookId, ManualProgress(v), v.scrollTop, settings.readingMode, now, true);
        storage := storage[ProgressKey(bookId) := Json(ProgressObject(record))];
      }
    }

    /**
     * `setupReadingMode()` as written: `setReadingMode` runs first and, with the container
     * present, stores the CURRENT position as the book's progress; the position then read
     * back for restoring is that current one, not the one saved before.
     */
    method SetupReadingMode(content: Option<ScrollView>, loc: BookLocation, now: Timestamp)
      returns (restoreTo: Option<real>)
      modifies this
      ensures settings == old(settings).(readingMode := "scroll")
      ensures restoreTo == RestoreTarget(SavedProgressData(storage, GetBookId(loc)))
      ensures content.None? ==> storage == old(storage)
      ensures content.Some? ==>
                storage == old(storage)[ProgressKey(GetBookId(loc)) := AutoRecord(GetBookId(loc), AutoProgress(content.value), content, "scroll", now)]
                                       [SettingsKey := SettingsText(settings, now)]
      ensures content.Some? ==>
                restoreTo == if content.value.scrollTop != 0.0 then Some(content.value.scrollTop) else None
    {
      SetReadingMode(settings.readingMode, content, loc, now);
      var saved := LoadSavedProgressData(loc);
      restoreTo := RestoreTarget(saved);
    }

    /**
     * `setupReadingMode()` reading the saved progress before scroll mode is set up: the
     * position it restores is the one stored before the call.
     */
    method SetupReadingModeRestoringSaved(content: Option<ScrollView>, loc: BookLocation, now: Timestamp)
      returns (restoreTo: Option<real>)
      modifies this
      ensures settings == old(settings).(readingMode := "scroll")
      ensures restoreTo == RestoreTarget(SavedProgressData(old(storage), GetBookId(loc)))
      ensures content.None? ==> storage == old(storage)
      ensures content.Some? ==>
                storage == old(storage)[ProgressKey(GetBookId(loc)) := AutoRecord(GetBookId(loc), AutoProgress(content.value), content, "scroll", now)]
                                       [SettingsKey := SettingsText(settings, now)]
    {
      var saved := LoadSavedProgressData(loc);
      restoreTo := RestoreTarget(saved);
      SetReadingMode(settings.readingMode, content, loc, now);
    }

    /** `loadReadingProgress()`: the stored percentage of the current book, 0 when missing or unreadable. */
    method LoadReadingProgress(loc: BookLocation) returns (percent: int)
      ensures percent == ReadProgress(storage, GetBookId(loc))
    {
      percent := ReadProgress(storage, GetBookId(loc));
    }

    /** `loadSavedProgressData()`: the parsed progress value of the current book, None for `null`. */
    method LoadSavedProgressData(loc: BookLocation) returns (data: Option<Document>)
      ensures data == SavedProgressData(storage, GetBookId(loc))
    {
      data := Parse(storage, ProgressKey(GetBookId(loc)));
      if data == Some(Null) {
        data := None;
      }
    }
  }

  /**
   * A percentage saved by one controller is what a second controller over the same storage
   * loads, when the second is created on a page without the content container (creating it
   * with the container present replaces the record first; see `SetupReplacesProgress`).
   */
  method ProgressReadByAnotherController(store: Store, content: Option<ScrollView>, loc: BookLocation, now: Timestamp)
    returns (saved: int, loaded: int)
    ensures saved == loaded
    ensures 0 <= loaded <= 100
  {
    var reader := new ReadingSettings(store, content, loc, now);
    saved := reader.UpdateReadingProgress(content, loc, now);
    var written := reader.storage;
    var next := new ReadingSettings(written, None, loc, now);
    SettingsWriteKeepsProgress(written, GetBookId(loc), SettingsText(LoadedSettings(Defaults, written), now));
    loaded := next.LoadReadingProgress(loc);
  }

  /**
   * A controller created with the container present loads the percentage of the current
   * view, whatever was saved before: its setup overwrote the record.
   */
  method SetupReplacesProgress(store: Store, view: ScrollView, loc: BookLocation, now: Timestamp)
    returns (loaded: int)
    ensures loaded == AutoProgress(view)
  {
    var reader := new ReadingSettings(store, Some(view), loc, now);
    var id := GetBookId(loc);
    var record := AutoRecord(id, AutoProgress(view), Some(view), "scroll", now);
    var loadedSettings := LoadedSettings(Defaults, store);
    var applied := if loadedSettings.theme in Themes.Table then store[SettingsKey := SettingsText(loadedSettings, now)] else store;
    SettingsWriteKeepsProgress(applied[ProgressKey(id) := record], id, SettingsText(reader.settings, now));
    loaded := reader.LoadReadingProgress(loc);
  }

  /** Settings changed and saved by one controller are the settings a new controller over that storage starts with. */
  method SettingsSurviveReload(store: Store, content: Option<ScrollView>, loc: BookLocation, delta: int, theme: string, now: Timestamp)
    returns (before: Settings, after: Settings)
    ensures before == after
    ensures MinFontSize <= after.fontSize <= MaxFontSize
  {
    var reader := new ReadingSettings(store, content, loc, now);
    reader.ChangeFontSize(delta, now);
    reader.ApplyTheme(theme, now);
    before := reader.settings;
    SettingsRoundTrip(Defaults, before, now, store);
    var next := new ReadingSettings(reader.storage, content, loc, now);
    after := next.settings;
  }

  /**
   * The setup as written loses a saved position. A book saved at 500 pixels is opened with
   * the content container already in the page, at the top. The controller's own
   * `setupReadingMode` stores the current position before reading the record back: what it
   * reads (the controller's storage is not touched after that read) restores nothing, and
   * the record now holds position 0. A controller that reads first, created before the
   * container is present and then set up with it, restores 500.
   */
  method SavedPositionLostOnSetup() returns (asWritten: Option<real>, stored: Option<Document>, readFirst: Option<real>)
    ensures asWritten == None
    ensures stored.Some? && stored.value.ProgressObject? && stored.value.record.scrollPosition == 0.0
    ensures readFirst == Some(500.0)
  {
    var loc := BookLocation(Some("book"), "/read/book.html");
    var record := ProgressRecord("book", 40, 500.0, "scroll", "2024-01-01T00:00:00.000Z", true);
    var store: Store := map[ProgressKey("book") := Json(ProgressObject(record))];
    var view := ScrollView(0.0, 2000.0, 750.0);
    var reader := new ReadingSettings(store, Some(view), loc, "2024-01-02T00:00:00.000Z");
    stored := reader.LoadSavedProgressData(loc);
    asWritten := RestoreTarget(stored);
    var other := new ReadingSettings(store, None, loc, "2024-01-02T00:00:00.000Z");
    readFirst := other.SetupReadingModeRestoringSaved(Some(view), loc, "2024-01-02T00:00:00.000Z");
  }
}
