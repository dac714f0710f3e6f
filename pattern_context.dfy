/**
 * The pattern library and the recorder of src/context/PatternContext.tsx.
 *
 * The pure part builds new library values (the spread and computed-key
 * expressions of the source); the class PatternProvider holds the three
 * state cells of the React provider and a log of the writes the provider
 * makes to local storage.
 */
module PatternContext {
  import opened Wrappers

  /** Payload of an event. `Unknown` stands for an event whose `type` is
      neither "intensity" nor "message" (possible in imported data). */
  datatype EventData =
    | Intensity(level: int)
    | Message(text: string, key: string)
    | Unknown(kind: string)

  /** One timestamped manual trigger; the timestamp is milliseconds from track start. */
  datatype PatternEvent = PatternEvent(timestamp: int, data: EventData)

  datatype SongPattern = SongPattern(
    trackId: string,
    trackName: string,
    artistName: string,
    duration: int,
    events: seq<PatternEvent>,
    recordedAt: int,
    playCount: int)

  datatype PatternLibrary = PatternLibrary(
    version: string,
    songs: map<string, SongPattern>,
    defaultPattern: seq<PatternEvent>)

  /** What the provider finds in local storage when it is created:
      nothing (no item, or an empty string), an item that cannot be read or
      parsed, or a parsed library. */
  datatype StoredLibrary = NothingStored | Unreadable | StoredValue(library: PatternLibrary)

  /** The result of parsing an import file: `version` and `songs` may be absent. */
  datatype ParsedLibrary = ParsedLibrary(
    version: Option<string>,
    songs: Option<map<string, SongPattern>>,
    defaultPattern: seq<PatternEvent>)

  /** The built-in library: used when nothing usable is stored. */
  function DefaultLibrary(): (lib: PatternLibrary)
    ensures lib.version == "1.0" && lib.songs == map[]
    ensures |lib.defaultPattern| == 3 && lib.defaultPattern[0].timestamp == 0
    ensures forall i :: 0 <= i < |lib.defaultPattern| ==>
      lib.defaultPattern[i].data.Intensity? && 1 <= lib.defaultPattern[i].data.level <= 10
    ensures forall i, j :: 0 <= i < j < |lib.defaultPattern| ==>
      lib.defaultPattern[i].timestamp < lib.defaultPattern[j].timestamp
  {
    PatternLibrary("1.0", map[], [
      PatternEvent(0, Intensity(5)),
      PatternEvent(60000, Intensity(7)),
      PatternEvent(120000, Intensity(3))])
  }

  /** The library the provider starts with. */
  function InitialLibrary(stored: StoredLibrary): PatternLibrary
  {
    if stored.StoredValue? then stored.library else DefaultLibrary()
  }

  /** A fresh working pattern for a track: no events, never played. */
  function NewPattern(trackId: string, trackName: string, artistName: string, duration: int, now: int): SongPattern
  {
    SongPattern(trackId, trackName, artistName, duration, [], now, 0)
  }

  /** The save rule: the working pattern is stored only when it exists and has events. */
  predicate HasEvents(working: Option<SongPattern>)
  {
    working.Some? && |working.value.events| > 0
  }

  /** Every stored pattern sits under its own track id and has at least one event:
      what the recorder's save rule keeps true. */
  ghost predicate WellKeyed(lib: PatternLibrary)
  {
    forall id :: id in lib.songs ==> lib.songs[id].trackId == id && |lib.songs[id].events| > 0
  }

  /** The library after the working pattern is saved under its track id, if it has events. */
  function SaveIfNonEmpty(lib: PatternLibrary, working: Option<SongPattern>): (r: PatternLibrary)
    ensures r.version == lib.version && r.defaultPattern == lib.defaultPattern
    ensures HasEvents(working) ==>
      r.songs.Keys == lib.songs.Keys + {working.value.trackId} &&
      r.songs[working.value.trackId] == working.value
    ensures !HasEvents(working) ==> r == lib
    ensures forall id :: id in lib.songs && !(HasEvents(working) && id == working.value.trackId) ==>
      id in r.songs && r.songs[id] == lib.songs[id]
    ensures WellKeyed(lib) ==> WellKeyed(r)
  {
    if HasEvents(working) then
      lib.(songs := lib.songs[working.value.trackId := working.value])
    else
      lib
  }

  /** The library without the pattern stored under `trackId`. */
  function RemoveSong(lib: PatternLibrary, trackId: string): (r: PatternLibrary)
    ensures r.version == lib.version && r.defaultPattern == lib.defaultPattern
    ensures r.songs.Keys == lib.songs.Keys - {trackId}
    ensures forall id :: id in r.songs ==> r.songs[id] == lib.songs[id]
    ensures trackId !in lib.songs ==> r == lib
    ensures WellKeyed(lib) ==> WellKeyed(r)
  {
    lib.(songs := lib.songs - {trackId})
  }

  /** JavaScript truthiness of an optional string field. */
  predicate Truthy(s: Option<string>)
  {
    s.Some? && s.value != ""
  }

  /** Import validation: the parse must succeed and `version` and `songs` must be
      present and truthy (an empty `songs` object is truthy, an empty `version` is not). */
  function ValidatedImport(parsed: Option<ParsedLibrary>): (r: Option<PatternLibrary>)
    ensures r.Some? <==> parsed.Some? && Truthy(parsed.value.version) && parsed.value.songs.Some?
    ensures r.Some? ==>
      r.value.version == parsed.value.version.value &&
      r.value.songs == parsed.value.songs.value &&
      r.value.defaultPattern == parsed.value.defaultPattern
  {
    if parsed.Some? && Truthy(parsed.value.version) && parsed.value.songs.Some? then
      Some(PatternLibrary(parsed.value.version.value, parsed.value.songs.value, parsed.value.defaultPattern))
    else
      None
  }

  /** A library as an export file holds it, once that file is parsed again. */
  function ExportedForm(lib: PatternLibrary): ParsedLibrary
  {
    ParsedLibrary(Some(lib.version), Some(lib.songs), lib.defaultPattern)
  }

  /** Importing an exported library gives back the same library, provided its
      version is non-empty. */
  lemma ImportOfExportRoundTrip(lib: PatternLibrary)
    requires lib.version != ""
    ensures ValidatedImport(Some(ExportedForm(lib))) == Some(lib)
  {
  }

  /** A library whose version is the empty string cannot be re-imported:
      the truthiness test rejects it although `version` is present. */
  lemma EmptyVersionIsRejected(lib: PatternLibrary)
    requires lib.version == ""
    ensures ValidatedImport(Some(ExportedForm(lib))) == None
  {
  }

  /** A change the recorder and the delete button make to the library. */
  datatype LibraryChange = Save(working: Option<SongPattern>) | Delete(trackId: string)

  /** The library after a sequence of changes, applied in order. */
  function ApplyChanges(lib: PatternLibrary, changes: seq<LibraryChange>): PatternLibrary
    decreases |changes|
  {
    if changes == [] then lib
    else
      var before := ApplyChanges(lib, changes[..|changes| - 1]);
      match changes[|changes| - 1]
      case Save(working) => SaveIfNonEmpty(before, working)
      case Delete(trackId) => RemoveSong(before, trackId)
  }

  /** Saves and deletions never store an empty pattern or a pattern under another
      track's id, and never touch the version or the default pattern. */
  lemma {:induction false} ChangesKeepLibraryWellKeyed(lib: PatternLibrary, changes: seq<LibraryChange>)
    requires WellKeyed(lib)
    ensures var r := ApplyChanges(lib, changes);
      WellKeyed(r) && r.version == lib.version && r.defaultPattern == lib.defaultPattern
    decreases |changes|
  {
    if changes != [] {
      ChangesKeepLibraryWellKeyed(lib, changes[..|changes| - 1]);
    }
  }

  /**
   * The pattern provider: whether a recording runs, the working pattern, and
   * the library. `storageWrites` is the sequence of libraries written to local
   * storage: one write when the provider starts and one after every library change.
   */
  class PatternProvider {
    var isRecording: bool
    var currentSongPattern: Option<SongPattern>
    var patternLibrary: PatternLibrary
    var storageWrites: seq<PatternLibrary>

    /** The last write holds the current library, and a running recording
        always has a working pattern: every method keeps this, and it is what
        lets RecordEvent's contract depend on `isRecording` alone. */
    ghost predicate Valid()
      reads this
    {
      && storageWrites != []
      && storageWrites[|storageWrites| - 1] == patternLibrary
      && (isRecording ==> currentSongPattern.Some?)
    }

    /** Starts from the stored library, or from the default one when nothing
        usable is stored; no structural check is made on a parsed value. */
    constructor (stored: StoredLibrary)
      ensures Valid()
      ensures stored.StoredValue? ==> patternLibrary == stored.library
      ensures !stored.StoredValue? ==> patternLibrary == DefaultLibrary()
      ensures !isRecording && currentSongPattern == None
      ensures storageWrites == [patternLibrary]
    {
      isRecording := false;
      currentSongPattern := None;
      patternLibrary := InitialLibrary(stored);
      storageWrites := [InitialLibrary(stored)];
    }

    method StartRecording(trackId: string, trackName: string, artistName: string, duration: int, now: int)
      requires Valid()
      modifies this
      ensures Valid()
      ensures isRecording
      ensures currentSongPattern.Some? && currentSongPattern.value.trackId == trackId
      ensures currentSongPattern.value == SongPattern(trackId, trackName, artistName, duration, [], now, 0)
      ensures patternLibrary == old(patternLibrary) && storageWrites == old(storageWrites)
    {
      isRecording := true;
      currentSongPattern := Some(NewPattern(trackId, trackName, artistName, duration, now));
    }

    method StopRecording()
      requires Valid()
      modifies this
      ensures Valid()
      ensures !isRecording && currentSongPattern == None
      ensures patternLibrary == SaveIfNonEmpty(old(patternLibrary), old(currentSongPattern))
      ensures storageWrites == if HasEvents(old(currentSongPattern))
        then old(storageWrites) + [patternLibrary] else old(storageWrites)
    {
      if HasEvents(currentSongPattern) {
        patternLibrary := SaveIfNonEmpty(patternLibrary, currentSongPattern);
        storageWrites := storageWrites + [patternLibrary];
      }
      isRecording := false;
      currentSongPattern := None;
    }

    /** Rotation on a track change: saves the outgoing pattern by the same rule as
        StopRecording and starts an empty one, leaving `isRecording` as it is. */
    method SaveAndStartNew(trackId: string, trackName: string, artistName: string, duration: int, now: int)
      requires Valid()
      modifies this
      ensures Valid()
      ensures isRecording == old(isRecording)
      ensures currentSongPattern == Some(SongPattern(trackId, trackName, artistName, duration, [], now, 0))
      ensures patternLibrary == SaveIfNonEmpty(old(patternLibrary), old(currentSongPattern))
      ensures storageWrites == if HasEvents(old(currentSongPattern))
        then old(storageWrites) + [patternLibrary] else old(storageWrites)
    {
      if HasEvents(currentSongPattern) {
        patternLibrary := SaveIfNonEmpty(patternLibrary, currentSongPattern);
        storageWrites := storageWrites + [patternLibrary];
      }
      currentSongPattern := Some(NewPattern(trackId, trackName, artistName, duration, now));
    }

    /** Appends the event to the working pattern while recording; otherwise does nothing. */
    method RecordEvent(event: PatternEvent)
      requires Valid()
      modifies this
      ensures Valid()
      ensures old(isRecording) ==>
        currentSongPattern == Some(old(currentSongPattern).value.(events := old(currentSongPattern).value.events + [event]))
      ensures !old(isRecording) ==> currentSongPattern == old(currentSongPattern)
      ensures isRecording == old(isRecording)
      ensures patternLibrary == old(patternLibrary) && storageWrites == old(storageWrites)
    {
      if !isRecording || currentSongPattern.None? {
        return;
      }
      var prev := currentSongPattern.value;
      currentSongPattern := Some(prev.(events := prev.events + [event]));
    }

    function GetPatternForTrack(trackId: string): (r: Option<SongPattern>)
      reads this
      ensures r.Some? <==> trackId in patternLibrary.songs
      ensures r.Some? ==> r.value == patternLibrary.songs[trackId]
    {
      if trackId in patternLibrary.songs then Some(patternLibrary.songs[trackId]) else None
    }

    /** The pattern replayed for a track with no stored pattern. */
    function GetDefaultPattern(): (r: seq<PatternEvent>)
      reads this
      ensures r == patternLibrary.defaultPattern
    {
      patternLibrary.defaultPattern
    }

    /** Replaces the whole library when the parsed value passes validation;
        otherwise leaves every field as it was. */
    method ImportLibrary(parsed: Option<ParsedLibrary>) returns (ok: bool)
      requires Valid()
      modifies this
      ensures Valid()
      ensures ok <==> parsed.Some? && Truthy(parsed.value.version) && parsed.value.songs.Some?
      ensures ok ==> Some(patternLibrary) == ValidatedImport(parsed) &&
                     storageWrites == old(storageWrites) + [patternLibrary]
      ensures !ok ==> patternLibrary == old(patternLibrary) && storageWrites == old(storageWrites)
      ensures isRecording == old(isRecording) && currentSongPattern == old(currentSongPattern)
    {
      var imported := ValidatedImport(parsed);
      if imported.Some? {
        patternLibrary := imported.value;
        storageWrites := storageWrites + [patternLibrary];
        return true;
      }
      return false;
    }

    /** Removes the pattern of one track; the library is written even when the key was absent. */
    method DeletePattern(trackId: string)
      requires Valid()
      modifies this
      ensures Valid()
      ensures patternLibrary == RemoveSong(old(patternLibrary), trackId)
      ensures storageWrites == old(storageWrites) + [patternLibrary]
      ensures isRecording == old(isRecording) && currentSongPattern == old(currentSongPattern)
    {
      patternLibrary := RemoveSong(patternLibrary, trackId);
      storageWrites := storageWrites + [patternLibrary];
    }
  }
}
