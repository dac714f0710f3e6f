/**
 * The computations of src/components/PatternRecorder.tsx: `formatTime`, the
 * song count, and the success/failure branch of the import handler.
 */
module PatternRecorder {
  import opened Wrappers
  import opened PatternContext

  predicate AllDigits(s: string)
  {
    forall i :: 0 <= i < |s| ==> '0' <= s[i] <= '9'
  }

  function DigitChar(d: nat): (c: char)
    requires d < 10
  {
    ('0' as int + d) as char
  }

  /** Decimal digits of a natural number, as `Number.prototype.toString` writes them. */
  function NatToString(n: nat): (s: string)
    ensures s != [] && AllDigits(s)
    decreases n
  {
    if n < 10 then [DigitChar(n)] else NatToString(n / 10) + [DigitChar(n % 10)]
  }

  /** `toString` of an integer: a minus sign before the digits of a negative one. */
  function IntToString(n: int): string
  {
    if n < 0 then "-" + NatToString(-n) else NatToString(n)
  }

  /** JavaScript's `a % b` for a positive divisor: the remainder takes the sign of `a`. */
  function TruncatedRemainder(a: int, b: int): int
    requires b > 0
  {
    if a >= 0 then a % b else -((-a) % b)
  }

  /** `s.padStart(2, '0')`. */
  function PadStart2(s: string): string
  {
    if |s| >= 2 then s else seq(2 - |s|, _ => '0') + s
  }

  /** `formatTime`: `Math.floor(ms / 1000)` seconds as minutes, a colon, and the
      remaining seconds padded to two digits. Dafny's `/` rounds down for a
      positive divisor, as `Math.floor` does. */
  function FormatTime(ms: int): (text: string)
    ensures ms >= 0 ==>
      && |text| >= 4 && text[|text| - 3] == ':'
      && AllDigits(text[..|text| - 3]) && AllDigits(text[|text| - 2..])
  {
    var seconds := ms / 1000;
    var mins := seconds / 60;
    var secs := TruncatedRemainder(seconds, 60);
    var text := IntToString(mins) + ":" + PadStart2(IntToString(secs));
    if seconds < 0 then text else PaddedTwoDigits(secs); text
  }

  /** A number below 100, padded to two places, is its two decimal digits. */
  lemma PaddedTwoDigits(d: nat)
    requires d < 100
    ensures PadStart2(NatToString(d)) == [DigitChar(d / 10), DigitChar(d % 10)]
  {
    if d < 10 {
      assert NatToString(d) == [DigitChar(d)];
    } else {
      assert NatToString(d) == NatToString(d / 10) + [DigitChar(d % 10)];
      assert NatToString(d / 10) == [DigitChar(d / 10)];
    }
  }

  /** Value of a string of decimal digits. */
  function DigitsValue(s: string): nat
    requires AllDigits(s)
  {
    if s == [] then 0 else 10 * DigitsValue(s[..|s| - 1]) + (s[|s| - 1] as int - '0' as int)
  }

  /** Reads an `m:ss` clock text back as a number of whole seconds. */
  function ParseClock(s: string): Option<nat>
  {
    if |s| >= 4 && s[|s| - 3] == ':' && AllDigits(s[..|s| - 3]) && AllDigits(s[|s| - 2..])
       && DigitsValue(s[|s| - 2..]) < 60
    then Some(60 * DigitsValue(s[..|s| - 3]) + DigitsValue(s[|s| - 2..]))
    else None
  }

  lemma {:induction false} DigitsOfNatToString(n: nat)
    ensures DigitsValue(NatToString(n)) == n
    decreases n
  {
    if n >= 10 {
      var s := NatToString(n);
      DigitsOfNatToString(n / 10);
      assert s[..|s| - 1] == NatToString(n / 10);
    }
  }

  /** For a non-negative time: the text is the decimal minutes, a colon and
      exactly two seconds digits; the seconds lie in 0..59 and 60 * minutes +
      seconds is the number of whole seconds. */
  lemma FormatTimeLayout(ms: int)
    requires ms >= 0
    ensures var seconds := ms / 1000;
      var secs := seconds % 60;
      && 0 <= secs <= 59
      && 60 * (seconds / 60) + secs == seconds
      && FormatTime(ms) == NatToString(seconds / 60) + [':', DigitChar(secs / 10), DigitChar(secs % 10)]
  {
    var seconds := ms / 1000;
    var secs := seconds % 60;
    PaddedTwoDigits(secs);
    assert ":" + [DigitChar(secs / 10), DigitChar(secs % 10)] == [':', DigitChar(secs / 10), DigitChar(secs % 10)];
  }

  /** Reading the text back gives the number of whole seconds. */
  lemma FormatTimeRoundTrip(ms: int)
    requires ms >= 0
    ensures ParseClock(FormatTime(ms)) == Some(ms / 1000)
  {
    FormatTimeLayout(ms);
    ParseClockOf(ms / 1000 / 60, ms / 1000 % 60);
  }

  /** The parser reads minutes, a colon and two seconds digits back as
      60 * minutes + seconds. */
  lemma ParseClockOf(mins: nat, secs: nat)
    requires secs < 60
    ensures ParseClock(NatToString(mins) + [':', DigitChar(secs / 10), DigitChar(secs % 10)]) == Some(60 * mins + secs)
  {
    var head := NatToString(mins);
    var text := head + [':', DigitChar(secs / 10), DigitChar(secs % 10)];
    assert text[..|text| - 3] == head;
    assert text[|text| - 3] == ':';
    assert text[|text| - 2..] == [DigitChar(secs / 10), DigitChar(secs % 10)];
    DigitsOfNatToString(mins);
    TwoDigitsValue(secs);
  }

  lemma TwoDigitsValue(d: nat)
    requires d < 100
    ensures AllDigits([DigitChar(d / 10), DigitChar(d % 10)])
    ensures DigitsValue([DigitChar(d / 10), DigitChar(d % 10)]) == d
  {
    var s := [DigitChar(d / 10), DigitChar(d % 10)];
    assert s[..1] == [DigitChar(d / 10)];
    assert [DigitChar(d / 10)][..0] == [];
    assert DigitsValue([DigitChar(d / 10)]) == d / 10;
    assert DigitChar(d % 10) as int - '0' as int == d % 10;
  }

  /** Two non-negative times show the same text exactly when they have the same
      number of whole seconds. */
  lemma FormatTimeSameText(a: int, b: int)
    requires a >= 0 && b >= 0
    ensures FormatTime(a) == FormatTime(b) <==> a / 1000 == b / 1000
  {
    FormatTimeRoundTrip(a);
    FormatTimeRoundTrip(b);
  }

  /** Less than a second shows as "0:00". */
  lemma FormatTimeUnderOneSecond(ms: int)
    requires 0 <= ms < 1000
    ensures FormatTime(ms) == "0:00"
  {
    FormatTimeLayout(ms);
    assert ms / 1000 == 0;
  }

  /** A negative time, not produced by the player, shows with minus signs. */
  lemma FormatTimeOfNegative()
    ensures FormatTime(-1) == "-1:-1"
  {
    assert -1 / 1000 == -1 && -1 / 60 == -1;
    assert TruncatedRemainder(-1, 60) == -1;
    assert NatToString(1) == "1";
    assert IntToString(-1) == "-1";
    assert PadStart2("-1") == "-1";
  }

  /** `songCount`: the number of keys of the library's `songs`. */
  function SongCount(lib: PatternLibrary): (n: nat)
    ensures n == |lib.songs.Keys|
    ensures n == 0 <==> lib.songs == map[]
  {
    |lib.songs|
  }

  /** Stopping a recording with events adds one song when its track had none, and none otherwise. */
  lemma SongCountAfterSave(lib: PatternLibrary, working: Option<SongPattern>)
    ensures SongCount(SaveIfNonEmpty(lib, working)) ==
      SongCount(lib) + (if HasEvents(working) && working.value.trackId !in lib.songs then 1 else 0)
  {
    if HasEvents(working) {
      var r := SaveIfNonEmpty(lib, working);
      assert r.songs.Keys == lib.songs.Keys + {working.value.trackId};
      assert |r.songs| == |r.songs.Keys|;
    }
  }

  /** Deleting removes one song exactly when the track had one. */
  lemma SongCountAfterDelete(lib: PatternLibrary, trackId: string)
    ensures SongCount(RemoveSong(lib, trackId)) == SongCount(lib) - (if trackId in lib.songs then 1 else 0)
  {
    var r := RemoveSong(lib, trackId);
    assert r.songs.Keys == lib.songs.Keys - {trackId};
    assert |r.songs| == |r.songs.Keys|;
  }

  /** `handleImport`: with no file chosen nothing happens; otherwise the file is
      imported and the user is told whether it worked. */
  method HandleImport(store: PatternProvider, file: Option<Option<ParsedLibrary>>) returns (alert: Option<string>)
    requires store.Valid()
    modifies store
    ensures store.Valid()
    ensures file.None? ==>
      && alert == None
      && store.patternLibrary == old(store.patternLibrary)
      && store.storageWrites == old(store.storageWrites)
    ensures file.Some? ==>
      && alert.Some?
      && (alert.value == "Library imported successfully!" <==> ValidatedImport(file.value).Some?)
    ensures file.Some? && ValidatedImport(file.value).Some? ==>
      && store.patternLibrary == ValidatedImport(file.value).value
      && store.storageWrites == old(store.storageWrites) + [store.patternLibrary]
    ensures file.Some? && ValidatedImport(file.value).None? ==>
      && alert.value == "Failed to import library. Invalid format."
      && store.patternLibrary == old(store.patternLibrary)
      && store.storageWrites == old(store.storageWrites)
    ensures store.isRecording == old(store.isRecording) && store.currentSongPattern == old(store.currentSongPattern)
  {
    if file.None? {
      return None;
    }
    var ok := store.ImportLibrary(file.value);
    if ok {
      alert := Some("Library imported successfully!");
    } else {
      alert := Some("Failed to import library. Invalid format.");
    }
  }
}
