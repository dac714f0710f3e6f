/**
 * The replay scheduler of src/hooks/useSongPattern.ts: the hook's three refs
 * become the fields of PatternScheduler, its two effects become the methods
 * OnTrackChange and OnPosition, and the callbacks it invokes are returned,
 * in order, as a sequence of Callback values.
 */
module SongPatternHook {
  import opened Wrappers
  import opened PatternContext

  /** Width of an event's due window, in milliseconds. */
  const DueWindowMs: int := 1000

  /** The position lies in the half-open window [timestamp, timestamp + 1000). */
  predicate InWindow(e: PatternEvent, position: int)
  {
    e.timestamp <= position < e.timestamp + DueWindowMs
  }

  /** A call the scheduler makes: `onIntensityChange(level)` or `onMessageTrigger(text)`. */
  datatype Callback = IntensityChange(level: int) | MessageTrigger(text: string)

  /** The pattern loaded for a track: the stored pattern's events or the default pattern. */
  datatype LoadedPattern = LoadedPattern(trackId: string, events: seq<PatternEvent>)

  /** The callbacks applying one event makes; an event of another type makes none. */
  function CallbacksOf(e: PatternEvent): (r: seq<Callback>)
    ensures e.data.Intensity? ==> r == [IntensityChange(e.data.level)]
    ensures e.data.Message? ==> r == [MessageTrigger(e.data.text)]
    ensures e.data.Unknown? ==> r == []
  {
    match e.data
    case Intensity(level) => [IntensityChange(level)]
    case Message(text, _) => [MessageTrigger(text)]
    case Unknown(_) => []
  }

  /** The indices below `n` that one position update applies, in the order it
      applies them: those not yet applied whose window holds the position. */
  function DueIndices(events: seq<PatternEvent>, applied: set<nat>, position: int, n: nat): (due: seq<nat>)
    requires n <= |events|
    ensures |due| <= n
    decreases n
  {
    if n == 0 then []
    else
      DueIndices(events, applied, position, n - 1)
      + (if n - 1 !in applied && InWindow(events[n - 1], position) then [n - 1] else [])
  }

  /** Index `i` is chosen iff it is below `n`, not yet applied, and the position
      lies in its window. */
  lemma {:induction false} DueIndicesMembers(events: seq<PatternEvent>, applied: set<nat>, position: int, n: nat, i: nat)
    requires n <= |events|
    ensures i in DueIndices(events, applied, position, n) <==>
      i < n && i !in applied && InWindow(events[i], position)
    decreases n
  {
    if n > 0 {
      DueIndicesMembers(events, applied, position, n - 1, i);
    }
  }

  predicate StrictlyIncreasing(s: seq<nat>)
  {
    forall k, l :: 0 <= k < l < |s| ==> s[k] < s[l]
  }

  /** The chosen indices are strictly increasing: due events fire in index order. */
  lemma {:induction false} DueIndicesIncreasing(events: seq<PatternEvent>, applied: set<nat>, position: int, n: nat)
    requires n <= |events|
    ensures StrictlyIncreasing(DueIndices(events, applied, position, n))
    decreases n
  {
    if n > 0 {
      var prefix := DueIndices(events, applied, position, n - 1);
      var due := DueIndices(events, applied, position, n);
      DueIndicesIncreasing(events, applied, position, n - 1);
      forall k | 0 <= k < |prefix|
        ensures prefix[k] < n - 1
      {
        DueIndicesMembers(events, applied, position, n - 1, prefix[k]);
      }
      assert due == prefix + (if n - 1 !in applied && InWindow(events[n - 1], position) then [n - 1] else []);
      forall k, l | 0 <= k < l < |due|
        ensures due[k] < due[l]
      {
        if l < |prefix| {
          assert due[k] == prefix[k] && due[l] == prefix[l];
        } else {
          assert due[k] == prefix[k] && due[l] == n - 1;
        }
      }
    }
  }

  /** The callbacks of the events at the given indices, in that order. */
  function CallbacksFor(events: seq<PatternEvent>, indices: seq<nat>): seq<Callback>
  {
    if indices == [] then []
    else
      var last := indices[|indices| - 1];
      CallbacksFor(events, indices[..|indices| - 1]) + (if last < |events| then CallbacksOf(events[last]) else [])
  }

  function Elements(s: seq<nat>): set<nat>
  {
    set x | x in s
  }

  /** The indices fired by a run of position updates while playing, starting
      from the applied set `applied`, with no reload in between. */
  function FiredAcross(events: seq<PatternEvent>, applied: set<nat>, positions: seq<int>): seq<nat>
    decreases |positions|
  {
    if positions == [] then []
    else
      var due := DueIndices(events, applied, positions[0], |events|);
      due + FiredAcross(events, applied + Elements(due), positions[1..])
  }

  /** No index occurs twice. */
  predicate Distinct(s: seq<nat>)
  {
    forall k, l :: 0 <= k < l < |s| ==> s[k] != s[l]
  }

  /** Between two reloads, each event index fires at most once, and never one
      that was already applied, whatever the positions (forward or backward). */
  lemma {:induction false} FiredAtMostOnce(events: seq<PatternEvent>, applied: set<nat>, positions: seq<int>)
    ensures Distinct(FiredAcross(events, applied, positions))
    ensures forall i :: i in FiredAcross(events, applied, positions) ==> i !in applied && i < |events|
    decreases |positions|
  {
    if positions != [] {
      var due := DueIndices(events, applied, positions[0], |events|);
      var rest := FiredAcross(events, applied + Elements(due), positions[1..]);
      FiredAtMostOnce(events, applied + Elements(due), positions[1..]);
      DueIndicesIncreasing(events, applied, positions[0], |events|);
      forall i | i in due
        ensures i !in applied && i < |events|
      {
        DueIndicesMembers(events, applied, positions[0], |events|, i);
      }
      assert FiredAcross(events, applied, positions) == due + rest;
      forall k, l | 0 <= k < l < |due + rest|
        ensures (due + rest)[k] != (due + rest)[l]
      {
        if l < |due| {
          assert (due + rest)[k] == due[k] && (due + rest)[l] == due[l];
        } else if k < |due| {
          assert (due + rest)[l] == rest[l - |due|] && rest[l - |due|] in rest;
          assert (due + rest)[k] == due[k] && due[k] in Elements(due);
        } else {
          assert (due + rest)[k] == rest[k - |due|] && (due + rest)[l] == rest[l - |due|];
        }
      }
    }
  }

  /** Once fired, an event stays silent in every later update before a reload,
      even if the position comes back into its window. */
  lemma AppliedEventDoesNotRefire(events: seq<PatternEvent>, applied: set<nat>, p1: int, p2: int, i: nat)
    requires i < |events| && i in DueIndices(events, applied, p1, |events|)
    ensures i !in DueIndices(events, applied + Elements(DueIndices(events, applied, p1, |events|)), p2, |events|)
  {
    DueIndicesMembers(events, applied + Elements(DueIndices(events, applied, p1, |events|)), p2, |events|, i);
  }

  /** The indices chosen below `i` are all smaller than `i`, so marking them does
      not change whether index `i` counts as applied. */
  lemma AppliedBelow(events: seq<PatternEvent>, applied: set<nat>, position: int, i: nat)
    requires i < |events|
    ensures i !in Elements(DueIndices(events, applied, position, i))
  {
    DueIndicesMembers(events, applied, position, i, i);
  }

  lemma DueIndicesStep(events: seq<PatternEvent>, applied: set<nat>, position: int, i: nat)
    requires i < |events|
    ensures DueIndices(events, applied, position, i + 1) ==
      if i !in applied && InWindow(events[i], position) then DueIndices(events, applied, position, i) + [i]
      else DueIndices(events, applied, position, i)
  {
    var prefix := DueIndices(events, applied, position, i);
    assert prefix + [] == prefix;
  }

  lemma AppendIndex(events: seq<PatternEvent>, due: seq<nat>, i: nat)
    requires i < |events|
    ensures CallbacksFor(events, due + [i]) == CallbacksFor(events, due) + CallbacksOf(events[i])
    ensures Elements(due + [i]) == Elements(due) + {i}
  {
    assert (due + [i])[..|due|] == due;
  }

  /** One iteration of the position loop: whether index `i` counts as applied is
      decided by the set the update started from, and choosing it extends the
      indices, the marked set and the callbacks by that one index. */
  lemma LoopStep(events: seq<PatternEvent>, before: set<nat>, position: int, i: nat, due: seq<nat>)
    requires i < |events| && due == DueIndices(events, before, position, i)
    ensures (i in before + Elements(due)) == (i in before)
    ensures i !in before && InWindow(events[i], position) ==>
      && DueIndices(events, before, position, i + 1) == due + [i]
      && CallbacksFor(events, due + [i]) == CallbacksFor(events, due) + CallbacksOf(events[i])
      && before + Elements(due + [i]) == before + Elements(due) + {i}
    ensures !(i !in before && InWindow(events[i], position)) ==>
      DueIndices(events, before, position, i + 1) == due
  {
    AppliedBelow(events, before, position, i);
    DueIndicesStep(events, before, position, i);
    AppendIndex(events, due, i);
  }

  class PatternScheduler {
    var lastTrackId: Option<string>
    var currentPattern: Option<LoadedPattern>
    var applied: set<nat>

    constructor ()
      ensures lastTrackId == None && currentPattern == None && applied == {}
    {
      lastTrackId := None;
      currentPattern := None;
      applied := {};
    }

    /** The track-change effect: clears everything when no track plays; on a new
        track id, loads the stored pattern (or the default pattern) and clears the
        applied set; on the same track id, changes nothing. */
    method OnTrackChange(track: Option<string>, store: PatternProvider)
      modifies this
      ensures track.None? ==> lastTrackId == None && currentPattern == None && applied == {}
      ensures track.Some? && track != old(lastTrackId) ==>
        && lastTrackId == track
        && applied == {}
        && currentPattern == Some(LoadedPattern(track.value,
             if track.value in store.patternLibrary.songs then store.patternLibrary.songs[track.value].events
             else store.patternLibrary.defaultPattern))
      ensures track.Some? && track == old(lastTrackId) ==>
        lastTrackId == old(lastTrackId) && currentPattern == old(currentPattern) && applied == old(applied)
    {
      if track.None? {
        lastTrackId := None;
        currentPattern := None;
        applied := {};
        return;
      }
      if track != lastTrackId {
        lastTrackId := track;
        applied := {};
        var pattern := store.GetPatternForTrack(track.value);
        if pattern.Some? {
          currentPattern := Some(LoadedPattern(track.value, pattern.value.events));
        } else {
          currentPattern := Some(LoadedPattern(track.value, store.GetDefaultPattern()));
        }
      }
    }

    /** The position effect: while playing with a pattern loaded, applies every
        due event in index order, marking each applied and returning its callbacks. */
    method OnPosition(position: int, isPlaying: bool) returns (calls: seq<Callback>)
      modifies this`applied
      ensures !isPlaying || currentPattern.None? ==> calls == [] && applied == old(applied)
      ensures isPlaying && currentPattern.Some? ==>
        var events := currentPattern.value.events;
        var due := DueIndices(events, old(applied), position, |events|);
        calls == CallbacksFor(events, due) && applied == old(applied) + Elements(due)
    {
      calls := [];
      if !isPlaying || currentPattern.None? {
        return;
      }
      var events := currentPattern.value.events;
      ghost var before := applied;
      ghost var due: seq<nat> := [];
      for i: nat := 0 to |events|
        invariant due == DueIndices(events, before, position, i)
        invariant applied == before + Elements(due)
        invariant calls == CallbacksFor(events, due)
      {
        LoopStep(events, before, position, i, due);
        if i in applied {
          continue;
        }
        if events[i].timestamp <= position && position < events[i].timestamp + DueWindowMs {
          applied := applied + {i};
          calls := calls + CallbacksOf(events[i]);
          due := due + [i];
        }
      }
    }

    /** `resetAppliedEvents`: forgets which events were applied. */
    method ResetAppliedEvents()
      modifies this`applied
      ensures applied == {}
    {
      applied := {};
    }
  }
}
