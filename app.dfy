/**
 * The keyboard dispatch of src/App.tsx: digit keys set the intensity, seven
 * trigger keys toggle a motivational message that clears itself after two
 * seconds. The browser's timer queue is modelled by the set of clear timers
 * that are scheduled and neither fired nor cancelled; `Expire` is the event
 * of one of them firing.
 */
module App {
  import opened Wrappers

  /** Delay after which a shown message clears itself, in milliseconds. */
  const MessageClearDelayMs: nat := 2000

  /** JavaScript's `a <= b` on strings: lexicographic order of the characters. */
  predicate StringLe(a: string, b: string)
    decreases |a|
  {
    a == [] || (b != [] && (a[0] < b[0] || (a[0] == b[0] && StringLe(a[1..], b[1..]))))
  }

  /** The test `key >= '0' && key <= '9'`, as written. */
  predicate PassesDigitTest(key: string)
  {
    StringLe("0", key) && StringLe(key, "9")
  }

  /** A key value a browser delivers: a single character, or a named key
      (such as "Enter" or "ArrowUp") whose name does not start with a digit. */
  predicate IsKeyValue(key: string)
  {
    |key| <= 1 || !('0' <= key[0] <= '9')
  }

  /** On the key values a browser delivers, the string comparison accepts exactly
      the ten digit characters. */
  lemma DigitTestMeansDigit(key: string)
    requires IsKeyValue(key)
    ensures PassesDigitTest(key) <==> |key| == 1 && '0' <= key[0] <= '9'
  {
    assert "0"[0] == '0' && "0"[1..] == [] && "9"[0] == '9' && "9"[1..] == [];
    if |key| >= 1 {
      assert StringLe("", key[1..]);
      assert StringLe(key[1..], "") <==> key[1..] == [];
    }
  }

  /** The comparison alone would also accept longer strings that start with a digit. */
  lemma DigitTestAcceptsLongerStrings()
    ensures PassesDigitTest("10") && PassesDigitTest("0x") && !PassesDigitTest("9x")
  {
    assert StringLe("", "0");
    assert StringLe("", "x");
    assert !StringLe("x", "");
  }

  /** The intensity a digit key selects: '0' means 10, '1'..'9' their own value. */
  function DigitIntensity(key: string): (level: Option<int>)
    requires IsKeyValue(key)
    ensures level.Some? <==> |key| == 1 && '0' <= key[0] <= '9'
    ensures level.Some? ==> 1 <= level.value <= 10
    ensures level == Some(10) <==> key == "0"
    ensures level.Some? && key != "0" ==> level.value == key[0] as int - '0' as int
  {
    DigitTestMeansDigit(key);
    if PassesDigitTest(key) then
      Some(if key == "0" then 10 else key[0] as int - '0' as int)
    else
      None
  }

  /** The trigger table: key value to message. */
  const Triggers: map<string, string> := map[
    " " := "KEEP GOING!",
    "Enter" := "PUSH IT!",
    "ArrowUp" := "FASTER!",
    "ArrowDown" := "RECOVER",
    "f" := "\U{1F525} BURN \U{1F525}",
    "p" := "POWER",
    "s" := "STRONG"]

  /** Every trigger message is non-empty (so the table's truthiness test is a
      membership test), and no trigger key is a digit key. */
  lemma TriggerMessagesNonEmpty()
    ensures forall k :: k in Triggers ==> Triggers[k] != "" && IsKeyValue(k) && DigitIntensity(k).None?
  {
  }

  /** Distinct trigger keys show distinct messages, so pressing one trigger
      while another's message is shown never toggles the message off. */
  lemma TriggerMessagesDistinct()
    ensures forall k1, k2 :: k1 in Triggers && k2 in Triggers && k1 != k2 ==> Triggers[k1] != Triggers[k2]
  {
  }

  class KeyboardDashboard {
    var intensity: int
    var activeMessage: Option<string>
    /** `messageTimeoutRef`: the id of the last clear timer scheduled, until cancelled.
        Timer ids are positive, as the browser's are, so the source's truthiness
        test on the ref is the test `messageTimeout.Some?`. */
    var messageTimeout: Option<nat>
    /** Clear timers that are scheduled and have neither fired nor been cancelled. */
    var pendingClears: set<nat>
    /** The id the next `setTimeout` returns; ids start at 1. */
    var nextTimerId: nat

    /** At most the timer held in the ref is pending, and a clear is pending
        exactly while a message is shown. */
    ghost predicate Valid()
      reads this
    {
      && 1 <= nextTimerId
      && (messageTimeout.Some? ==> 1 <= messageTimeout.value < nextTimerId)
      && (forall t :: t in pendingClears ==> messageTimeout == Some(t))
      && (activeMessage.Some? <==> pendingClears != {})
    }

    constructor ()
      ensures Valid()
      ensures intensity == 0 && activeMessage == None && messageTimeout == None && pendingClears == {}
      ensures nextTimerId == 1
    {
      intensity := 0;
      activeMessage := None;
      messageTimeout := None;
      pendingClears := {};
      nextTimerId := 1;
    }

    /** `handleKeyDown`. */
    method HandleKeyDown(key: string)
      requires Valid() && IsKeyValue(key)
      modifies this
      ensures Valid()
      // digit keys set the intensity and touch nothing else
      ensures DigitIntensity(key).Some? ==>
        && intensity == DigitIntensity(key).value
        && activeMessage == old(activeMessage) && messageTimeout == old(messageTimeout)
        && pendingClears == old(pendingClears) && nextTimerId == old(nextTimerId)
      // every other key leaves the intensity alone
      ensures DigitIntensity(key).None? ==> intensity == old(intensity)
      // a key that is neither a digit nor a trigger changes nothing
      ensures DigitIntensity(key).None? && key !in Triggers ==>
        && activeMessage == old(activeMessage) && messageTimeout == old(messageTimeout)
        && pendingClears == old(pendingClears) && nextTimerId == old(nextTimerId)
      // the trigger of the message already shown clears it and cancels its timer
      ensures DigitIntensity(key).None? && key in Triggers && old(activeMessage) == Some(Triggers[key]) ==>
        && activeMessage == None && messageTimeout == None && pendingClears == {}
        && nextTimerId == old(nextTimerId)
      // any other trigger shows its message, with exactly one fresh clear timer pending
      ensures DigitIntensity(key).None? && key in Triggers && old(activeMessage) != Some(Triggers[key]) ==>
        && activeMessage == Some(Triggers[key])
        && messageTimeout == Some(old(nextTimerId)) && pendingClears == {old(nextTimerId)}
        && old(nextTimerId) !in old(pendingClears) && nextTimerId == old(nextTimerId) + 1
    {
      var level := DigitIntensity(key);
      if level.Some? {
        intensity := level.value;
      } else if key in Triggers {
        var newMessage := Triggers[key];
        if messageTimeout.Some? {
          pendingClears := pendingClears - {messageTimeout.value};
          messageTimeout := None;
        }
        if activeMessage == Some(newMessage) {
          activeMessage := None;
        } else {
          activeMessage := Some(newMessage);
          messageTimeout := Some(nextTimerId);
          pendingClears := pendingClears + {nextTimerId};
          nextTimerId := nextTimerId + 1;
        }
      }
    }

    /** A pending clear timer fires: the message disappears; the ref keeps the
        (now stale) timer id, as the source never resets it there. */
    method Expire(timer: nat)
      requires Valid() && timer in pendingClears
      modifies this
      ensures Valid()
      ensures activeMessage == None && pendingClears == {}
      ensures intensity == old(intensity) && messageTimeout == old(messageTimeout)
      ensures nextTimerId == old(nextTimerId)
    {
      activeMessage := None;
      pendingClears := pendingClears - {timer};
    }
  }

  /** In every valid state at most one clear timer is pending. */
  lemma AtMostOnePendingClear(d: KeyboardDashboard)
    requires d.Valid()
    ensures |d.pendingClears| <= 1
  {
    if d.pendingClears != {} {
      var t := d.messageTimeout.value;
      assert d.pendingClears <= {t};
      assert d.pendingClears == {t};
    }
  }
}
