# Workout pattern recorder and replayer, modelled in Dafny

This is a Dafny model of the pattern engine in the workout dashboard. The engine records, stores and replays "patterns". A pattern is a timestamped sequence of intensity changes and motivational messages captured while a music track plays. The library keeps at most one pattern per track. It has one built-in default pattern, used for tracks that have none.

The model covers four source files:

- `pattern_context.dfy` (module `PatternContext`) models `src/context/PatternContext.tsx`.
  - The event, pattern and library records become datatypes, and the library's `songs` becomes a `map<string, SongPattern>`.
  - Pure functions (`SaveIfNonEmpty`, `RemoveSong`, `ValidatedImport`) build the new library values.
  - The React provider becomes the class `PatternProvider`. Its fields are `isRecording`, `currentSongPattern` and `patternLibrary`. A fourth field, `storageWrites`, records every write to local storage.
- `song_pattern.dfy` (module `SongPatternHook`) models `src/hooks/useSongPattern.ts`.
  - The hook's three refs become the fields of `PatternScheduler`.
  - The track-change effect becomes `OnTrackChange`.
  - The position effect becomes `OnPosition`. Its loop is proved against the specification function `DueIndices`, and it returns the callbacks in the order they are made.
- `app.dfy` (module `App`) models `handleKeyDown` of `src/App.tsx`.
  - It is the class `KeyboardDashboard`.
  - The two-second auto-clear timer is explicit: the set of pending clear timers, the timeout ref, and an `Expire` event.
- `pattern_recorder.dfy` (module `PatternRecorder`) models three pieces of `src/components/PatternRecorder.tsx`.
  - `formatTime`, with JavaScript's truncating `%` and `padStart` written out. A clock parser `ParseClock` is its inverse.
  - The song count.
  - The success/failure branch of the import handler.
- `scenarios.dfy` composes the recorder and the scheduler in two call sequences. One records two events, stops, and replays them. The other rotates the recording on a track change.
- `wrappers.dfy` defines `Option`, which stands for `T | null` and for absent fields.

Points where the code does something a reader might not expect:

- At start-up, the stored library is used whenever the stored text parses. The code checks nothing else about its structure. The default library is used only when nothing is stored or the text does not parse.
- Import tests `version` and `songs` for JavaScript truthiness, not just for presence. An empty-string `version` is rejected. An empty `songs` object is accepted.
- The due window is 1000 ms, as in the code. The comment beside it says 500 ms.
- Import does not enforce the rule that an empty pattern is never stored. An imported library may contain empty patterns, or patterns stored under another track's id. `ChangesKeepLibraryWellKeyed` proves that this rule (`WellKeyed`) holds for the recorder's saves and for deletions.

## Model

| member | source | states |
|---|---|---|
| PatternContext.DefaultLibrary | src/context/PatternContext.tsx:55-63 | The built-in library has version "1.0" and no songs. Its default pattern has three intensity events, with levels in 1..10, at strictly increasing timestamps starting at 0. |
| PatternContext.PatternProvider.constructor | src/context/PatternContext.tsx:80-104 | The provider starts idle, with no working pattern. It uses the stored library when one was parsed, and the default library when nothing is stored or the stored text cannot be read. The mount effect writes the library once. |
| PatternContext.SaveIfNonEmpty | src/context/PatternContext.tsx:121-128 | The save rule: the working pattern is stored under its own track id if and only if it exists and has at least one event. Every other key keeps its pattern, and the version and default pattern are unchanged. The rule preserves `WellKeyed`. |
| PatternContext.RemoveSong | src/context/PatternContext.tsx:206-211 | Deleting removes exactly the given key and keeps every other pattern, the version and the default pattern. It is the identity when the key is absent. |
| PatternContext.ValidatedImport | src/context/PatternContext.tsx:193-204 | Import succeeds if and only if parsing succeeded, `version` is a non-empty string and `songs` is present. On success the library is exactly the imported version, songs and default pattern. |
| PatternContext.ImportOfExportRoundTrip | src/context/PatternContext.tsx:182-197 | Importing what export wrote gives back the same library, provided its version is non-empty. |
| PatternContext.EmptyVersionIsRejected | src/context/PatternContext.tsx:196 | A library whose version is "" is rejected by import, although its `version` field is present. |
| PatternContext.ChangesKeepLibraryWellKeyed | src/context/PatternContext.tsx:121-145 | Any sequence of saves and deletions keeps every stored pattern non-empty and under its own track id. It never changes the version or the default pattern. |
| PatternContext.PatternProvider.StartRecording | src/context/PatternContext.tsx:106-118 | Recording is on, with a fresh working pattern for the given track: no events, play count 0, recorded at the given time. The library and storage are untouched. |
| PatternContext.PatternProvider.StopRecording | src/context/PatternContext.tsx:120-133 | The library becomes `SaveIfNonEmpty` of the working pattern. Storage is written exactly when something was saved. The recorder always ends idle, with no working pattern. |
| PatternContext.PatternProvider.SaveAndStartNew | src/context/PatternContext.tsx:136-160 | The outgoing pattern is saved by the same rule. An empty working pattern for the new track is installed, and `isRecording` is unchanged. |
| PatternContext.PatternProvider.RecordEvent | src/context/PatternContext.tsx:162-172 | While recording with a working pattern, the event is appended after all earlier events. Otherwise nothing changes. The library and storage are never touched. |
| PatternContext.PatternProvider.GetPatternForTrack | src/context/PatternContext.tsx:174-176 | Returns the stored pattern when the key is present, and null otherwise. |
| PatternContext.PatternProvider.GetDefaultPattern | src/context/PatternContext.tsx:178-180 | Returns the library's current default pattern, the one `OnTrackChange` loads for a track with no stored pattern. The default pattern's own shape is stated by `DefaultLibrary`. |
| PatternContext.PatternProvider.ImportLibrary | src/context/PatternContext.tsx:193-204 | Returns true if and only if validation passes. In that case the whole library is replaced and written to storage. On failure, library, storage and recorder state are unchanged. |
| PatternContext.PatternProvider.DeletePattern | src/context/PatternContext.tsx:206-211 | The library becomes `RemoveSong` of the key, and it is written to storage even when the key was absent. The recorder state is unchanged. |
| SongPatternHook.PatternScheduler.constructor | src/hooks/useSongPattern.ts:14-16 | The scheduler starts with no last track, no loaded pattern and an empty applied set. |
| SongPatternHook.PatternScheduler.OnTrackChange | src/hooks/useSongPattern.ts:19-40 | No track: everything is cleared. A new track id: the applied set is emptied and the stored pattern's events are loaded, or the default pattern when none is stored. The same id again: nothing changes. |
| SongPatternHook.PatternScheduler.OnPosition | src/hooks/useSongPattern.ts:43-67 | Nothing happens unless playing with a pattern loaded. Otherwise the callbacks made are exactly those of `DueIndices`, in order. The applied set grows by exactly those indices. |
| SongPatternHook.DueIndices | src/hooks/useSongPattern.ts:48-64 | The indices one position update applies, in the order it applies them. There are never more than there are events. Which indices these are is stated by `DueIndicesMembers`, their order by `DueIndicesIncreasing`, and the at-most-once property by `FiredAtMostOnce`. |
| SongPatternHook.CallbacksOf | src/hooks/useSongPattern.ts:58-64 | An intensity event makes exactly the call `onIntensityChange(level)` with its level, a message event exactly `onMessageTrigger(text)` with its text, and an event of any other type makes no call. |
| SongPatternHook.DueIndicesMembers | src/hooks/useSongPattern.ts:52-56 | Index i fires in an update if and only if it is not yet applied and timestamp ≤ position < timestamp + 1000. |
| SongPatternHook.DueIndicesIncreasing | src/hooks/useSongPattern.ts:48-66 | Within one update, due events fire in strictly increasing index order. |
| SongPatternHook.FiredAtMostOnce | src/hooks/useSongPattern.ts:52-56 | Over any sequence of positions between two reloads, no index fires twice and no already-applied index fires. |
| SongPatternHook.AppliedEventDoesNotRefire | src/hooks/useSongPattern.ts:52-56 | An event fired in one update stays silent in any later update before a reload, even when the position returns into its window. |
| SongPatternHook.PatternScheduler.ResetAppliedEvents | src/hooks/useSongPattern.ts:70-72 | The applied set becomes empty. |
| App.DigitTestMeansDigit | src/App.tsx:23 | On key values a browser delivers, the string comparison `key >= '0' && key <= '9'` holds if and only if the key is a single digit character. |
| App.DigitTestAcceptsLongerStrings | src/App.tsx:23 | The comparison by itself also accepts strings such as "10" and "0x". This is why the model is limited to browser key values. |
| App.DigitIntensity | src/App.tsx:22-25 | A key gives an intensity if and only if it is a single digit. '0' gives 10 and '1'..'9' give their value, so every digit key gives a level in 1..10. |
| App.TriggerMessagesNonEmpty | src/App.tsx:29-39 | Every trigger message is non-empty, so the truthiness test is a membership test. No trigger key is a digit key. |
| App.TriggerMessagesDistinct | src/App.tsx:29-37 | Different trigger keys have different messages. |
| App.KeyboardDashboard.constructor | src/App.tsx:6-11 | The dashboard starts at intensity 0, with no message and no timer. |
| App.KeyboardDashboard.HandleKeyDown | src/App.tsx:19-61 | A digit sets the intensity and changes nothing else. A non-trigger key changes nothing. The trigger of the message already shown clears it and leaves no clear pending. Any other trigger shows its message and leaves exactly one fresh clear pending. Every pending clear is cancelled first. |
| App.KeyboardDashboard.Expire | src/App.tsx:55-57 | When the pending clear fires, the message becomes null and no clear is pending. The timeout ref keeps the stale id. |
| App.AtMostOnePendingClear | src/App.tsx:42-57 | In every reachable state at most one clear timer is pending. |
| PatternRecorder.FormatTimeLayout | src/components/PatternRecorder.tsx:20-25 | For ms ≥ 0 the text is the decimal minutes, then ':', then exactly two seconds digits. The seconds lie in 0..59, and 60·mins + secs = floor(ms/1000). |
| PatternRecorder.FormatTime | src/components/PatternRecorder.tsx:20-25 | For ms ≥ 0 the text is digits, a colon and exactly two digits. Its meaning is stated by `FormatTimeLayout`, `FormatTimeRoundTrip` (the inverse `ParseClock`) and `FormatTimeSameText`. |
| PatternRecorder.FormatTimeRoundTrip | src/components/PatternRecorder.tsx:20-25 | Parsing the formatted text back gives floor(ms/1000). |
| PatternRecorder.FormatTimeSameText | src/components/PatternRecorder.tsx:21 | Two non-negative times format identically if and only if they have the same number of whole seconds. |
| PatternRecorder.FormatTimeUnderOneSecond | src/components/PatternRecorder.tsx:21-24 | Any ms in [0, 1000) formats as "0:00". |
| PatternRecorder.FormatTimeOfNegative | src/components/PatternRecorder.tsx:21-24 | With JavaScript's truncating `%`, −1 ms formats as "-1:-1". |
| PatternRecorder.SongCount | src/components/PatternRecorder.tsx:43 | The number of keys of `songs`, zero exactly for an empty library. How saves and deletions change it is stated by `SongCountAfterSave` and `SongCountAfterDelete`. |
| PatternRecorder.SongCountAfterSave | src/components/PatternRecorder.tsx:43 | The song count (number of keys in `songs`) grows by one when a non-empty pattern is saved for a new track. Otherwise it is unchanged. |
| PatternRecorder.SongCountAfterDelete | src/components/PatternRecorder.tsx:43 | The song count drops by one exactly when the deleted track had a pattern. |
| PatternRecorder.HandleImport | src/components/PatternRecorder.tsx:27-41 | With no file, nothing happens. Otherwise the success alert is shown if and only if the import was accepted, the failure alert otherwise. On success the library becomes the imported one and is written to storage once. On failure, library and storage are unchanged. |

## Left out

- Local storage I/O (src/context/PatternContext.tsx:83-104) is modelled only as the list of libraries written (`storageWrites`). A failed write is logged in the source and is not modelled.
- A stored text that parses to something other than a library is used without any check in the source. The typed model can only represent a parsed value that is a well-typed library.
- PatternRecorder.HandleImport: a chosen file is taken as read successfully. The source reads it with an asynchronous `FileReader` (src/components/PatternRecorder.tsx:31-40). A read error never fires `onload` and shows no alert, which the model does not capture.
- `songs` is a plain object in the source, so `songs[trackId] || null` (src/context/PatternContext.tsx:175) would return an inherited member for an id such as "constructor". The model's `songs` is a map with no inherited members. Spotify track ids never take those names.
- JSON text is not modelled. Import takes the already-parsed value (`None` when parsing throws), and export is modelled only at that parsed level (`ExportedForm`). Every field other than `version` and `songs` is taken as well-typed.
- `exportLibrary`'s download through Blob, URL and an anchor element (src/context/PatternContext.tsx:184-190) is browser I/O.
- `Date.now()` for `recordedAt` is a parameter (`now`).
- React closure staleness and batching are not modelled: each operation sees the latest state. This also covers `activeMessageRef` lagging behind `activeMessage` in src/App.tsx:14-16.
- The caller that rotates the recording on a track change, and the 'R' key, are not part of this model. `scenarios.dfy` composes the modelled operations in their place.
- Real timer delays are not modelled. The 2000 ms auto-clear is the `Expire` event, and position updates are calls to `OnPosition`.
- The playback feed (src/context/SpotifyContext.tsx) is not part of this model. Its track id, position and playing flag are parameters.
- The OAuth server, rendering components, type declarations, and the duplicate `formatTime` in src/components/SpotifyPlayer.tsx are not part of this model.
- App.KeyboardDashboard.HandleKeyDown: requires a browser key value (one character, or a named key not starting with a digit). A longer string starting with a digit would pass the comparison and reach `parseInt`, which is not modelled.
- PatternRecorder.FormatTime: works on integer milliseconds. Fractional values, NaN, and `toString`'s exponent notation at 10^21 and above are not modelled.
- Event timestamps and positions are unbounded integers. The source's double-precision numbers are not modelled.
