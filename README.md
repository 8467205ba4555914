# Reading settings and progress — a Dafny model

This project models the state-keeping core of `ReadingSettings`, the browser-side controller
of a web book reader (`js/reading-settings.js`). The controller keeps the reader's
preferences (font size, font family, text alignment, reading mode, theme, brightness) in a
`currentSettings` record. It saves that record to `localStorage` after every change and
overlays it on the defaults at start-up. It also computes how far the reader has scrolled
through the book and stores that per book under `reading-progress-<bookId>`. It derives
the book id from an external accessor or from the page path. And it turns each theme
colour into a dimmed or brightened `#rrggbb` colour.

The Dafny modules follow those pieces:

- `Numbers`: `Math.round`, `Math.min` and `Math.max` on exact numbers.
- `Strings`: `String.replace` with a string pattern (only the first occurrence goes).
- `Colors`: the `#RRGGBB` codec and `adjustColorBrightness`.
- `Themes`: the built-in theme table of `createThemes`, and the colours `applyBrightness` writes, including its fall-back to `dark`.
- `Progress`: the percentage formulas of `updateReadingProgress` (clamped) and `manualSaveProgress` (not clamped).
- `BookIds`: `getBookId` and the storage keys.
- `Storage`: the stored records, with JSON text abstracted to the value `JSON.parse` gives, and the functions that read them back.
- `Controller`: the class `ReadingSettings`. Its `settings` field is `currentSettings` and its `storage` field is `localStorage`. Its methods are the setters and the save/load operations.

Inputs the source reads from the browser are parameters:
- `now` is the clock, `new Date().toISOString()`.
- `content: Option<ScrollView>` says whether `#book-content` exists and gives its scroll metrics.
- `BookLocation` holds the current book accessor's id and `location.pathname`.

Facts about the code that the model keeps:
- `changeFontFamily` and `setTextAlign` accept any string; `fontOptions` is never consulted.
- Brightness is stored without a bound.
- The percentage saved by `manualSaveProgress` is not clamped and can exceed 100; the automatic one is clamped to [0, 100].
- `Math.round` rounds halves towards +infinity (127.5 becomes 128), not away from zero.
- Creating the controller is not read-only: `init` saves the settings again (through `applyAllSettings` → `applyTheme`), forces the reading mode to `scroll`, and, when `#book-content` exists, replaces the book's progress record with the current position.

## Model

| member | source | states |
|---|---|---|
| `Numbers.MinReal` | js/reading-settings.js:530-532 | `Math.min` on numbers: at most both arguments and equal to one of them |
| `Numbers.Min` | js/reading-settings.js:193-196 | `Math.min` on integers: at most both arguments and equal to one of them |
| `Numbers.Max` | js/reading-settings.js:193-196 | `Math.max` on integers: at least both arguments and equal to one of them |
| `Numbers.Round` | js/reading-settings.js:349 | `Math.round(x)` is the integer within half a unit of `x`, halves going up |
| `Strings.RemoveFirst` | js/reading-settings.js:421 | `replace(pat, "")` cuts out exactly the first occurrence of `pat`; a string without `pat` is returned unchanged; never longer |
| `Colors.ParsePair` | js/reading-settings.js:525-527 | `parseInt(_, 16)` on two hex digits of either case is a byte whose sixteens are the first digit and whose units are the second |
| `Colors.Decode` | js/reading-settings.js:524-527 | the three channels of `#` plus six hex digits are the values of the pairs `substr(0, 2)`, `substr(2, 2)`, `substr(4, 2)` after the `#` |
| `Colors.ToBase16` | js/reading-settings.js:535 | `n.toString(16)` is a single digit exactly below 16, ends in the digit of `n % 16`, and has no leading zero |
| `Colors.PadStartPads` | js/reading-settings.js:535 | `padStart(width, fill)` reaches the width (or keeps a longer string), fills only on the left and keeps the string as its suffix |
| `Colors.ToHex` | js/reading-settings.js:535 | `toString(16).padStart(2, "0")` gives two lower-case hex digits that `parseInt(_, 16)` reads back as the same byte |
| `Colors.ToHexParsePair` | js/reading-settings.js:525-527 | two lower-case hex digits, parsed and re-encoded, come back unchanged |
| `Colors.Encode` | js/reading-settings.js:535-536 | the `#${toHex(r)}${toHex(g)}${toHex(b)}` string is a lower-case `#rrggbb` colour that decodes to the same three channels |
| `Colors.EncodeDecode` | js/reading-settings.js:524-536 | every lower-case `#rrggbb` colour is the encoding of its own decoded channels |
| `Colors.Scale` | js/reading-settings.js:530-532 | `c * brightness` is non-negative, at most `c` when dimming, at least `c` when brightening |
| `Colors.AdjustChannel` | js/reading-settings.js:530-532 | `Math.round(Math.min(255, c * b))` is a byte; dimming never raises a channel and brightening never lowers it |
| `Colors.AdjustColorBrightness` | js/reading-settings.js:522-537 | for `#` plus six hex digits and brightness >= 0, the result is `#` plus six lower-case hex digits, and each decoded channel is `round(min(255, c * b))` of the input channel |
| `Colors.AdjustIdentity` | js/reading-settings.js:530-536 | brightness 1.0 returns every lower-case `#rrggbb` colour unchanged |
| `Colors.HalfBrightWhite` | js/reading-settings.js:530-536 | `#ffffff` at brightness 0.5 is `#808080`: 127.5 rounds up to 128 |
| `Themes.TableWellFormed` | js/reading-settings.js:26-85 | every colour of the eight built-in themes is a lower-case `#rrggbb` string |
| `Themes.Variables` | js/reading-settings.js:497-498 | the keys `Object.keys` lists, `name` skipped: four distinct CSS variables, with the background, page, text and border colours in that order |
| `Themes.EffectiveTheme` | js/reading-settings.js:494-495 | `this.themes[name] \|\| this.themes.dark` is always a well-formed theme |
| `Themes.AdjustTheme` | js/reading-settings.js:497-506 | adjusting every colour of a theme keeps it well formed; at brightness 1.0 the theme is unchanged |
| `Themes.BrightnessStyle` | js/reading-settings.js:487-506 | `applyBrightness` writes four lower-case colours; at brightness 1.0 they are the theme's own colours |
| `Themes.UnknownThemeFallsBackToDark` | js/reading-settings.js:494-495 | a theme name missing from the table produces exactly the `dark` theme's colours |
| `Themes.FullBrightnessKeepsEveryTheme` | js/reading-settings.js:28-83 | at brightness 1.0 every built-in theme is displayed with its table colours |
| `Progress.ManualProgress` | js/reading-settings.js:721-723 | the manual percentage is 0 when the content cannot scroll, otherwise the integer nearest to `scrollTop / maxScroll * 100`, without a clamp |
| `Progress.AutoProgress` | js/reading-settings.js:346-350 | the automatic percentage always lies in [0, 100]; it is 0 when the content cannot scroll; it is the nearest integer when the exact value is in range, and 0 or 100 beyond either end |
| `Progress.AutoClampsManual` | js/reading-settings.js:347-350 | the automatic percentage is the manual one clamped to [0, 100] |
| `Progress.ManualAgreesInRange` | js/reading-settings.js:722-723 | with `0 <= scrollTop <= maxScroll` both percentages agree and lie in [0, 100] |
| `Progress.ManualExceedsHundred` | js/reading-settings.js:723 | scrolled half a percent past the range, the manual percentage exceeds 100 while the automatic one is 100 |
| `Progress.RatioWithin` | js/reading-settings.js:349 | `0 <= top <= max` puts `top / max * 100` in [0, 100] |
| `Progress.HalfwayExample` | js/reading-settings.js:347-349 | 50 pixels into a 100-pixel range is 50 percent on both paths |
| `BookIds.LastSegment` | js/reading-settings.js:420 | `split("/").pop()` has no `/`, is a suffix of the path, and is preceded by a `/` unless it is the whole path |
| `BookIds.FileStem` | js/reading-settings.js:419-421 | the file name with its first `.html` removed contains no `/` |
| `BookIds.GetBookId` | js/reading-settings.js:411-425 | never empty; a non-empty configured id wins; otherwise the id is the file stem of the path, or `unknown-book` when that is empty, and has no `/` |
| `BookIds.ProgressKey` | js/reading-settings.js:444 | `reading-progress-<id>` starts with the prefix, ends with the id, and is never `reading-settings` |
| `BookIds.ProgressKeyInjective` | js/reading-settings.js:461 | two books with the same progress key are the same book |
| `Storage.Parse` | js/reading-settings.js:461-465 | `getItem` then `JSON.parse` yields a value exactly when the key is present and its text parses |
| `Storage.SettingsText` | js/reading-settings.js:657-663 | the object `saveSettings` writes carries the timestamp, and overlaying it on any settings gives exactly the saved settings |
| `Storage.Overlay` | js/reading-settings.js:674-676 | `{...current, ...settings}`: each field present in the saved object replaces the current one and each absent field keeps its value; a progress object changes only the reading mode; `null` and non-object values change nothing |
| `Storage.LoadedSettings` | js/reading-settings.js:669-682 | a missing or unparsable `reading-settings` entry leaves the settings as they were |
| `Storage.ReadProgress` | js/reading-settings.js:459-471 | the stored record's percentage; a missing or unparsable entry, or one that is not a progress record, reads as 0 |
| `Storage.SavedProgressData` | js/reading-settings.js:643-654 | the book's parsed entry; none exactly when the entry is missing, unparsable or `null` |
| `Storage.SettingsRoundTrip` | js/reading-settings.js:656-682 | settings written by `saveSettings` are loaded back field for field, whatever the settings were before |
| `Storage.ProgressRoundTrip` | js/reading-settings.js:427-471 | a progress record written for a book is read back as its percentage |
| `Storage.ProgressWriteKeepsSettings` | js/reading-settings.js:443-446 | writing a book's progress changes neither the stored settings nor what `loadSettings` makes of them |
| `Storage.SettingsWriteKeepsProgress` | js/reading-settings.js:663 | writing the settings changes no book's progress |
| `Storage.ProgressWritesAreIndependent` | js/reading-settings.js:443-446 | writing one book's progress leaves every other book's progress as it was |
| `Controller.ClampFontSize` | js/reading-settings.js:193-196 | the font size lies in [14, 24], equals the request inside the range, and is the nearest bound outside it |
| `Controller.AutoRecord` | js/reading-settings.js:431-440 | the record `saveReadingProgress` writes holds the book id, percentage and mode, has no manual flag, and restores the container's position (nothing without the container or at the top) |
| `Controller.ManualRecord` | js/reading-settings.js:721-732 | the record `manualSaveProgress` writes holds the unclamped percentage, is flagged manual, and restores the current position |
| `Controller.RestoreTarget` | js/reading-settings.js:606-607 | a position is restored exactly when the saved value is a progress record with a non-zero scroll position, and it is that position |
| `Controller.ReadingSettings.constructor` | js/reading-settings.js:87-100 | `init` run on the defaults of lines 2-10: the defaults overlaid with the stored settings, with the mode forced to `scroll`; storage gets the settings again when the theme is known and, with the container present, the book's progress record for the current position followed by the settings |
| `Controller.ReadingSettings.ApplyAllSettings` | js/reading-settings.js:593-599 | the settings are unchanged; they are saved again exactly when their theme is in the table |
| `Controller.ReadingSettings.SaveSettings` | js/reading-settings.js:656-667 | `reading-settings` holds the current settings and the timestamp; nothing else changes |
| `Controller.ReadingSettings.LoadSettings` | js/reading-settings.js:669-682 | the settings become the stored settings overlaid on the old ones; storage is only read |
| `Controller.ReadingSettings.ChangeFontSize` | js/reading-settings.js:192-199 | the font size ends in [14, 24] for any prior size and delta, no other field changes, and the stored settings equal the new ones |
| `Controller.ReadingSettings.ChangeFontFamily` | js/reading-settings.js:201-205 | only the font family changes, and the new settings are stored |
| `Controller.ReadingSettings.ChangeBrightness` | js/reading-settings.js:207-211 | only the brightness changes, and the new settings are stored |
| `Controller.ReadingSettings.SetTextAlign` | js/reading-settings.js:219-224 | only the alignment changes, and the new settings are stored |
| `Controller.ReadingSettings.ApplyTheme` | js/reading-settings.js:539-557 | an unknown name changes no setting and writes nothing; a known name becomes the theme and is stored |
| `Controller.ReadingSettings.SetReadingMode` | js/reading-settings.js:226-239 | the mode becomes `scroll` whatever is passed; without the container nothing is stored; with it the progress and then the settings are stored |
| `Controller.ReadingSettings.SaveReadingProgress` | js/reading-settings.js:427-457 | the book's key holds the percentage, the scroll position (0 without the container), the reading mode and the timestamp; settings are unchanged |
| `Controller.ReadingSettings.UpdateReadingProgress` | js/reading-settings.js:341-409 | the returned percentage is in [0, 100], is 0 without the container, and is the one stored for the book |
| `Controller.ReadingSettings.ManualSaveProgress` | js/reading-settings.js:716-751 | without the container nothing is written; with it the unclamped percentage is stored with `manualSave` set |
| `Controller.ReadingSettings.LoadReadingProgress` | js/reading-settings.js:459-471 | the result is the stored percentage of the current book, or 0 |
| `Controller.ReadingSettings.LoadSavedProgressData` | js/reading-settings.js:643-654 | the result is the parsed progress value of the current book, or none |
| `Controller.ReadingSettings.SetupReadingMode` | js/reading-settings.js:601-609 | as written: with the container present, the book's record is replaced by one at the current position and the settings are saved, and the position offered for restoring is that current one, not the saved one |
| `Controller.ReadingSettings.SetupReadingModeRestoringSaved` | js/reading-settings.js:601-609 | reading first: the position offered for restoring is the one stored before the call; storage changes as in the original order |
| `Controller.ProgressReadByAnotherController` | js/reading-settings.js:341-471 | a save/load round trip between two controller objects: the percentage one saves, in [0, 100], is what a second one created without the container loads |
| `Controller.SetupReplacesProgress` | js/reading-settings.js:94-99 | a controller created with the container present loads the percentage of the current view, whatever was saved before |
| `Controller.SettingsSurviveReload` | js/reading-settings.js:656-682 | settings changed by one controller are the settings a new controller over the same storage starts with |
| `Controller.SavedPositionLostOnSetup` | js/reading-settings.js:601-609 | a book saved at 500 pixels and opened with the container already present at the top: the setup as written reads back a record at position 0 and restores nothing; reading first restores 500 |

## Findings

| source | as written | input that shows it | evidently intended | confidence | as-written member | corrected member |
|---|---|---|---|---|---|---|
| js/reading-settings.js:601-609 | `setupReadingMode` calls `setReadingMode` first. With `#book-content` present, that call runs `updateReadingProgress`, which overwrites `reading-progress-<id>` with the current scroll position. Only then is the saved position read back for `restoreScrollPosition`. | A book saved at `scrollPosition` 500 is opened with `#book-content` already present at `scrollTop` 0 when the controller is created, as on a static page or with a container that is present but still empty. `init`'s `setupReadingMode` (lines 97-99) replaces the record with one at position 0 and then reads that back, so nothing is restored and the saved position is gone. | Restore the position saved before the page was set up, by reading it before scroll mode is set up. | medium; not executed | `Controller.SavedPositionLostOnSetup` (as-written half), `Controller.ReadingSettings.SetupReadingMode` | `Controller.ReadingSettings.SetupReadingModeRestoringSaved` |

## Left out

- DOM effects are not modelled. This covers the style, `cssText` and CSS-variable writes of `applyFontSettings`, `applyTheme`, `applyBrightness` and `setupScrollMode`. It also covers the progress-bar fill and text elements, `toggleImageFullscreen`, `updateActiveTheme`, `updateButtonStates`, `updateButtonState`, `openSettings`, `closeSettings`, `showNotification`, and the continue button's visibility in `checkSavedPosition`. These have no state beyond what is modelled. `Themes.BrightnessStyle` gives the values `applyBrightness` writes.
- Event-listener wiring is not modelled: `setupEventListeners`, `setupButton`, `setupSelect`, `setupScrollProgressTracking`, `setupProgressButtons`, and the `bookContentLoaded` and `DOMContentLoaded` listeners. It is event plumbing. The methods it binds are modelled one by one.
- `Controller.ReadingSettings.constructor`: it takes `init`'s immediate branch, because the bootstrap creates the controller on `DOMContentLoaded`. The branch that waits for `DOMContentLoaded` when the document is still loading is not modelled. The retry loop of `restoreScrollPosition` that `setupReadingMode` starts is not modelled either.
- `restoreScrollPosition` is not modelled. It is a timer-driven retry that sets `scrollTop`. `Controller.RestoreTarget` gives the position `setupReadingMode` hands it.
- `continueFromSavedPosition` is not modelled. It is a smooth scroll that reads storage itself. It takes `scrollPosition || 0` and scrolls only when that is greater than 0, so unlike `Controller.RestoreTarget` it ignores negative positions.
- A configured `currentBook.id` that is truthy but not a string, such as a number, is not modelled. The source returns it and stringifies it into the progress key. `BookLocation.currentBookId` holds only strings.
- The foreign call `BookDOMHelper.updateHomePageProgress` is not modelled, and neither is console logging. `window.bookConfig` and `location.pathname` are inputs.
- JSON text is not modelled. A stored string is abstracted to what `JSON.parse` returns: `null`, a non-object value, a settings-shaped object, a progress-shaped object, or a parse error.
- Objects with other shapes are not modelled. Extra fields of a loaded object are dropped. The source spreads them into `currentSettings`, including the stored `timestamp`, which every save overwrites anyway.
- Stored field values of the wrong JavaScript type (a string font size, say) are not modelled.
- `localStorage.setItem` failures such as a full quota are not modelled. The source catches them and skips the write; the model's writes always succeed.
- `localStorage.getItem` failures, when storage is disabled, are not modelled. The calls at lines 461, 645 and 671 sit outside the `try`, so the exception escapes, and from `loadSettings` it makes `new ReadingSettings()` fail. The model's reads always succeed.
- Theme names that are properties inherited by every JavaScript object (`constructor`, `toString`, …) are not modelled. The source's `this.themes[name]` finds them too. In the model the table holds exactly its eight keys.
- Numbers are exact reals. IEEE-754 rounding, `NaN` and negative zero are not modelled.
- `Colors.AdjustColorBrightness`: requires a `#` followed by six hex digits and a brightness of at least 0. Other input makes `parseInt` return `NaN` or `toString(16)` print a `-` sign.
- `fontOptions` is not modelled. It is a list the logic never consults: `changeFontFamily` accepts any name.
- `Numbers.Min` and `Numbers.MinReal` are the same `Math.min` on two types. The model keeps font sizes as integers and channel products as reals.
- The `lastProgressPercent` field is not modelled. It only gates a log line.
