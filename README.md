# Diary app: verified model of the diary screen's state

The diary app keeps an in-memory, append-only list of diary entries
(`DiaryModel`), a pair of reward counters (`RewardsModel`: points and a
"streak" that simply counts accepted entries), and one screen
(`ContentView`) whose "Add Entry" button validates the typed text, stores it
as a new entry, awards points and clears the editor. The screen lists the
entries newest first.

This project models that logic in Dafny:

- `trimming.dfy` (module `Trimming`): the guard's
  `trimmingCharacters(in: .whitespacesAndNewlines).isEmpty`, with the
  character set as a parameter (`TrimStart`, `TrimEnd`,
  `TrimmingCharacters`), `.whitespacesAndNewlines` as an explicit set, and
  the fact that trimming leaves nothing exactly when every character is in
  the set; `IsBlank` names that condition for `.whitespacesAndNewlines`.
- `models.dfy` (module `Models`): `DiaryEntry` (the record of lines 26-30 of
  `Sources/DiaryApp/DiaryApp.swift`, with the date as an integer timestamp
  and the raw text; a value type, so it has no row of its own below) and the two state holders as classes whose methods update their
  fields in place.
- `display.dfy` (module `DisplayOrder`): the newest-first display order as a
  pure function, proved to be a date-descending permutation, determined up to
  the order of entries with equal dates, and idempotent.
- `content_view.dfy` (module `Screen`): the submission step, first as a pure
  transition `Submit` on the whole screen state (entries, points, streak,
  editor text), with sessions of edit/press events (`Run`) and the invariant
  `points == 10 * streak` and `streak == |entries|` they keep; then as the
  `ContentView` class, whose `AddEntry` performs the source's
  guard-construct-append-award-clear sequence on the shared models and is
  proved to match `Submit`.

Timestamps are integers supplied by the caller (the `now` parameter) instead
of the wall clock.

## Model

| member | source | states |
|---|---|---|
| `Models.DiaryModel.constructor` | Sources/DiaryApp/DiaryApp.swift:19 | a new entry store is empty |
| `Models.DiaryModel.AddEntry` | Sources/DiaryApp/DiaryApp.swift:21-23 | the list grows by exactly one, the new last element is the given entry, every earlier element is unchanged |
| `Models.RewardsModel.constructor` | Sources/DiaryApp/DiaryApp.swift:33-34 | a new reward tracker has points 0 and streak 0 |
| `Models.RewardsModel.AddPoints` | Sources/DiaryApp/DiaryApp.swift:36-39 | points become old + 10 and streak old + 1, whatever the entry; the object has no other state to change |
| `Trimming.TrimStart` | Sources/DiaryApp/DiaryApp.swift:92 | the result is a suffix of the input, every dropped character is in the trimmed set, and the result does not start with one (the longest such prefix is removed) |
| `Trimming.TrimEnd` | Sources/DiaryApp/DiaryApp.swift:92 | the result is a prefix of the input, every dropped character is in the trimmed set, and the result does not end with one (the longest such suffix is removed) |
| `Trimming.TrimmingCharacters` | Sources/DiaryApp/DiaryApp.swift:92 | the result is the input with only characters of the set removed from its two ends: a prefix of the start-trimmed text whose dropped tail is all in the set, never longer than the input, and when non-empty neither starting nor ending with a character of the set |
| `Trimming.TrimEmptyIffAllIn` | Sources/DiaryApp/DiaryApp.swift:92 | the text trims to the empty string if and only if every character is in the trimmed set (the empty text included); with `.whitespacesAndNewlines` this is exactly the blank text |
| `Trimming.BlankExamples` | Sources/DiaryApp/DiaryApp.swift:92 | sample verdicts: `""`, `"   "` and a mix of tab, CR, LF, NBSP and U+3000 are blank; `"Had a good day"` and `"  A\n"` are not |
| `Trimming.TrimsToEmpty` | Sources/DiaryApp/DiaryApp.swift:92 | the guard `trimmingCharacters(in: .whitespacesAndNewlines).isEmpty` is true exactly for text that is empty or all whitespace and newlines |
| `DisplayOrder.Insert` | Sources/DiaryApp/DiaryApp.swift:52 | inserting adds exactly that entry (multiset grows by it, length by one) and puts it either first or behind the old first entry |
| `DisplayOrder.InsertSorted` | Sources/DiaryApp/DiaryApp.swift:52 | inserting into a date-descending list keeps it date-descending |
| `DisplayOrder.SortedDesc` | Sources/DiaryApp/DiaryApp.swift:52 | the displayed list is a permutation of the stored entries (same multiset, same length) in non-increasing date order |
| `DisplayOrder.SortedDescOfSorted` | Sources/DiaryApp/DiaryApp.swift:52 | a list already in date-descending order is displayed exactly as stored |
| `DisplayOrder.SortedDescIdempotent` | Sources/DiaryApp/DiaryApp.swift:52 | sorting the displayed list again returns the same list |
| `DisplayOrder.SortedDescIffDatesDescending` | Sources/DiaryApp/DiaryApp.swift:52 | a list is in the display's date order exactly when its sequence of dates is non-increasing |
| `DisplayOrder.SortedDescPair` | Sources/DiaryApp/DiaryApp.swift:52 | two entries stored oldest first are displayed newest first |
| `DisplayOrder.ResortKeepsDates` | Sources/DiaryApp/DiaryApp.swift:52 | re-sorting a date-descending arrangement into any other date-descending arrangement leaves the dates position by position unchanged |
| `DisplayOrder.DisplayDeterminedUpToTies` | Sources/DiaryApp/DiaryApp.swift:52 | every date-descending permutation of the entries has, position by position, the same dates as the displayed list, so whatever tie-break `sorted(by:)` uses only reorders entries of equal date |
| `Screen.Initial` | Sources/DiaryApp/DiaryApp.swift:19-46 | the launch state (no entries, zero counters, empty editor) already satisfies points = 10 * streak = 10 * number of entries |
| `Screen.Submit` | Sources/DiaryApp/DiaryApp.swift:91-97 | a press adds no entry when the editor text is blank and exactly one, `(now, raw text)`, at the end otherwise; earlier entries are kept; points rise by 10 and streak by 1 per entry added; a blank press changes nothing, the editor text included; an accepted one clears the editor |
| `Screen.Apply` | Sources/DiaryApp/DiaryApp.swift:64-69 | an edit changes only the editor text; neither an edit nor a press lowers points or streak or drops or alters a stored entry, and both keep the invariant |
| `Screen.Run` | Sources/DiaryApp/DiaryApp.swift:64-97 | from any state, whatever the session, points and streak never decrease and the stored entries are only extended at the end |
| `Screen.SubmitKeepsConsistent` | Sources/DiaryApp/DiaryApp.swift:91-97 | one press keeps points = 10 * streak = 10 * number of entries and all entries non-blank, and no counter or the list shrinks |
| `Screen.RunKeepsConsistent` | Sources/DiaryApp/DiaryApp.swift:91-97 | any session of edits and presses keeps that invariant, never decreases points, streak or the entry count, and leaves earlier entries as they were |
| `Screen.FromLaunch` | Sources/DiaryApp/DiaryApp.swift:18-39 | from the launch state (empty list, zero counters) every session ends with points = 10 * streak, streak = number of entries, points non-negative |
| `Screen.TypedAllAccepted` | Sources/DiaryApp/DiaryApp.swift:91-97 | typing and submitting non-blank texts appends one entry per text, in order, with the raw text and its timestamp, adds 10 points and 1 streak per text and leaves the editor empty |
| `Screen.HundredFromLaunch` | Sources/DiaryApp/DiaryApp.swift:91-97 | a hundred accepted submissions from launch give 1000 points, streak 100 and 100 entries |
| `Screen.ContentView.constructor` | Sources/DiaryApp/DiaryApp.swift:44-46 | the view holds the two shared models it is given and starts with an empty editor |
| `Screen.ContentView.Shown` | Sources/DiaryApp/DiaryApp.swift:52 | the list shown is a date-descending permutation of the stored entries, computed on read without changing them |
| `Screen.ContentView.AddEntry` | Sources/DiaryApp/DiaryApp.swift:91-97 | blank editor text: entries, points, streak and text unchanged; otherwise exactly one entry `(now, raw text)` is appended, points +10, streak +1, editor cleared; the new observed state equals `Submit` of the old one, and the invariant is kept |
| `Screen.TwoEntries` | Sources/DiaryApp/DiaryApp.swift:52 | submitting "A" then a later "B" from launch shows B before A, with 20 points and streak 2 |
| `Screen.BlankIgnored` | Sources/DiaryApp/DiaryApp.swift:92 | pressing the button on blank text at launch stores nothing, awards nothing and keeps the editor text |

## Left out

- The SwiftUI scaffolding (`DiaryApp`, `WindowGroup`, the view layout and `RewardsView`): rendering only, no logic.
- `ObservableObject`/`@Published`/`@EnvironmentObject` change notification: the fields are plain mutable state; `ContentView` is handed the two model objects.
- The `id` of `DiaryEntry` (`UUID()`): a random identifier from a foreign call; entries carry only date and text, and no uniqueness is claimed.
- `Date()`: the clock is replaced by the caller-supplied integer `now`.
- `Codable` conformance: nothing is encoded or decoded anywhere.
- The editor binding (`TextEditor(text: $newEntryText)`): typing is modelled as assigning `newEntryText` (the `Edit` event in the pure model).
- `WhitespacesAndNewlines` is an explicit set (general category Z*, U+0009 to U+000D, U+0085) standing in for Foundation's `.whitespacesAndNewlines`, whose exact contents live in a library that is not part of this model; trimming works on Unicode scalar values, not on grapheme clusters.
- Models.RewardsModel.AddPoints: integers are unbounded, so the runtime trap of Swift's `Int` on overflow of `points += 10` is not modelled.
- DisplayOrder.SortedDesc: Swift does not document how `sorted(by:)` orders entries with equal dates; the model keeps their stored order, and the properties claimed for the source are only permutation, date-descending order and `DisplayDeterminedUpToTies`. `SortedDescOfSorted` and `SortedDescIdempotent` hold exactly for the model's tie-break; for an arbitrary tie-break they hold on the dates (`DisplayDeterminedUpToTies`, `ResortKeepsDates`).
