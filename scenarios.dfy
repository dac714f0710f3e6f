/**
 * Two call sequences that compose the recorder and the scheduler, verified
 * only from the contracts of their operations. The caller that rotates the recording on a
 * track change is not among the modelled files; here it is a plain sequence
 * of calls.
 */
module Scenarios {
  import opened Wrappers
  import opened PatternContext
  import opened SongPatternHook

  /** Record an intensity and a message on track "A", stop, then replay: the
      intensity fires once at 5200 ms and not again at 5600 ms. */
  method RecordStopReplay()
  {
    var store := new PatternProvider(NothingStored);
    store.StartRecording("A", "Track A", "Artist", 180000, 0);
    var push := PatternEvent(5000, Intensity(7));
    var shout := PatternEvent(12000, Message("PUSH IT!", "Enter"));
    store.RecordEvent(push);
    store.RecordEvent(shout);
    store.StopRecording();
    assert !store.isRecording;
    assert store.GetPatternForTrack("A").Some?;
    assert store.GetPatternForTrack("A").value.events == [push, shout];

    var scheduler := new PatternScheduler();
    scheduler.OnTrackChange(Some("A"), store);
    assert scheduler.currentPattern == Some(LoadedPattern("A", [push, shout]));
    var calls := scheduler.OnPosition(5200, true);
    assert DueIndices([push, shout], {}, 5200, 2) == [0];
    assert calls == [IntensityChange(7)];
    calls := scheduler.OnPosition(5600, true);
    assert DueIndices([push, shout], {0}, 5600, 2) == [];
    assert calls == [];
  }

  /** Recording "A" when the player reports "B": "A" is saved, and the recording
      goes on for "B" with no events. An unknown track then replays the default pattern. */
  method RotateOnTrackChange()
  {
    var store := new PatternProvider(NothingStored);
    store.StartRecording("A", "Track A", "Artist", 180000, 0);
    store.RecordEvent(PatternEvent(1000, Intensity(9)));
    store.SaveAndStartNew("B", "Track B", "Artist", 200000, 180000);
    assert store.isRecording;
    assert store.currentSongPattern.Some? && store.currentSongPattern.value.trackId == "B";
    assert store.currentSongPattern.value.events == [];
    assert "A" in store.patternLibrary.songs;

    var scheduler := new PatternScheduler();
    scheduler.OnTrackChange(Some("C"), store);
    assert scheduler.currentPattern.Some?;
    assert scheduler.currentPattern.value.events == DefaultLibrary().defaultPattern;
  }
}
