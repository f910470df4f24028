/**
 * The three mutations of the alarm list screen: toggle, delete and add.
 * Each one changes `app.alarms` in place and then reschedules the whole
 * collection. Saving is left out.
 */
module AlarmsList {
  import opened Base
  import opened AlarmModel
  import opened Scheduler
  import opened App

  /** `firstIndex(of:)`: the index of the first element equal to `x`, if any. */
  method FirstIndexOf(s: seq<Alarm>, x: Alarm) returns (r: Option<nat>)
    ensures r.Some? ==> r.value < |s| && s[r.value] == x && forall j :: 0 <= j < r.value ==> s[j] != x
    ensures r.None? ==> x !in s
  {
    var i := 0;
    while i < |s|
      invariant 0 <= i <= |s|
      invariant forall j :: 0 <= j < i ==> s[j] != x
    {
      if s[i] == x {
        return Some(i);
      }
      i := i + 1;
    }
    return None;
  }

  /** `s` with `isEnabled` set to `value` on the first element equal to `shown`. */
  function Toggled(s: seq<Alarm>, shown: Alarm, value: bool): seq<Alarm>
    decreases |s|
  {
    if s == [] then []
    else if s[0] == shown then [s[0].(isEnabled := value)] + s[1..]
    else [s[0]] + Toggled(s[1..], shown, value)
  }

  /** When `shown` first occurs at `i`, toggling rewrites element `i` and nothing else. */
  lemma {:induction false} ToggledAt(s: seq<Alarm>, shown: Alarm, value: bool, i: nat)
    requires i < |s| && s[i] == shown
    requires forall j :: 0 <= j < i ==> s[j] != shown
    ensures Toggled(s, shown, value) == s[i := s[i].(isEnabled := value)]
    decreases |s|
  {
    if i > 0 {
      ToggledAt(s[1..], shown, value, i - 1);
      assert s[i := s[i].(isEnabled := value)] == [s[0]] + s[1..][i - 1 := s[i].(isEnabled := value)];
    }
  }

  /** Toggling an alarm that is not in the list changes nothing. */
  lemma {:induction false} ToggledAbsent(s: seq<Alarm>, shown: Alarm, value: bool)
    requires shown !in s
    ensures Toggled(s, shown, value) == s
    decreases |s|
  {
    if s != [] {
      assert s[1..] + [] == s[1..];
      ToggledAbsent(s[1..], shown, value);
      assert s == [s[0]] + s[1..];
    }
  }

  /** Toggling keeps the length and every field but `isEnabled` of every alarm, ids included. */
  lemma {:induction false} ToggledKeepsShape(s: seq<Alarm>, shown: Alarm, value: bool)
    ensures |Toggled(s, shown, value)| == |s|
    ensures forall j :: 0 <= j < |s| ==> Toggled(s, shown, value)[j] == s[j].(isEnabled := Toggled(s, shown, value)[j].isEnabled)
    decreases |s|
  {
    if s != [] && s[0] != shown {
      ToggledKeepsShape(s[1..], shown, value);
    }
  }

  /** Each id is carried by one alarm only. */
  predicate UniqueIds(s: seq<Alarm>) {
    forall i, j :: 0 <= i < j < |s| ==> s[i].id != s[j].id
  }

  /** With unique ids, switching an alarm off by the toggle leaves no request for its id after rescheduling. */
  lemma DisablingLeavesNoRequests(s: seq<Alarm>, shown: Alarm)
    requires UniqueIds(s) && shown in s
    ensures RequestsFor(Expand(Toggled(s, shown, false)), shown.id) == []
  {
    var t := Toggled(s, shown, false);
    var i :| 0 <= i < |s| && s[i] == shown;
    forall j | 0 <= j < i ensures s[j] != shown {
    }
    ToggledAt(s, shown, false, i);
    forall j | 0 <= j < |t| && t[j].id == shown.id ensures !t[j].isEnabled {
    }
    NoRequestsForDisabledAlarm(t, shown.id);
  }

  /** The number of offsets in `offsets` below `n`. */
  function RemovedBelow(offsets: set<nat>, n: nat): nat {
    if n == 0 then 0 else RemovedBelow(offsets, n - 1) + (if n - 1 in offsets then 1 else 0)
  }

  /** `remove(atOffsets:)`: `s` without the elements at `offsets`, survivors in their old order. */
  function RemoveOffsets(s: seq<Alarm>, offsets: set<nat>): seq<Alarm>
    decreases |s|
  {
    if s == [] then []
    else RemoveOffsets(s[..|s| - 1], offsets) + (if |s| - 1 in offsets then [] else [s[|s| - 1]])
  }

  /** Removal shortens the list by the number of offsets removed. */
  lemma {:induction false} RemoveOffsetsLength(s: seq<Alarm>, offsets: set<nat>)
    ensures |RemoveOffsets(s, offsets)| == |s| - RemovedBelow(offsets, |s|)
    decreases |s|
  {
    if s != [] {
      RemoveOffsetsLength(s[..|s| - 1], offsets);
    }
  }

  /** `RemovedBelow` counts exactly the offsets below `n`. */
  lemma {:induction false} RemovedBelowIsCardinality(offsets: set<nat>, n: nat)
    ensures RemovedBelow(offsets, n) == |set k | k in offsets && k < n|
    decreases n
  {
    if n > 0 {
      RemovedBelowIsCardinality(offsets, n - 1);
      var below := set k | k in offsets && k < n - 1;
      var upTo := set k | k in offsets && k < n;
      if n - 1 in offsets {
        assert upTo == below + {n - 1};
      } else {
        assert upTo == below;
      }
    }
  }

  /** When every offset lies below `n`, `RemovedBelow(offsets, n)` is the number of offsets. */
  lemma RemovedBelowAll(offsets: set<nat>, n: nat)
    requires forall k :: k in offsets ==> k < n
    ensures RemovedBelow(offsets, n) == |offsets|
  {
    RemovedBelowIsCardinality(offsets, n);
    assert (set k | k in offsets && k < n) == offsets;
  }

  lemma {:induction false} RemovedBelowMonotone(offsets: set<nat>, m: nat, n: nat)
    requires m <= n
    ensures RemovedBelow(offsets, m) <= RemovedBelow(offsets, n)
    ensures RemovedBelow(offsets, n) - RemovedBelow(offsets, m) <= n - m
    decreases n
  {
    if m < n {
      RemovedBelowMonotone(offsets, m, n - 1);
    }
  }

  /**
   * Every survivor keeps its relative order: the element at offset `j`
   * not removed moves down by the number of removed offsets below it.
   */
  lemma {:induction false} RemoveOffsetsKeeps(s: seq<Alarm>, offsets: set<nat>, j: nat)
    requires j < |s| && j !in offsets
    ensures RemovedBelow(offsets, j) <= j
    ensures j - RemovedBelow(offsets, j) < |RemoveOffsets(s, offsets)|
    ensures RemoveOffsets(s, offsets)[j - RemovedBelow(offsets, j)] == s[j]
    decreases |s|
  {
    var init := s[..|s| - 1];
    RemoveOffsetsLength(s, offsets);
    RemovedBelowMonotone(offsets, 0, j);
    RemovedBelowMonotone(offsets, j, |s|);
    if j < |s| - 1 {
      RemoveOffsetsKeeps(init, offsets, j);
      assert init[j] == s[j];
    } else {
      RemoveOffsetsLength(init, offsets);
    }
  }

  /** Every element left after removal is a survivor, found at its shifted position. */
  lemma {:induction false} RemoveOffsetsOnlySurvivors(s: seq<Alarm>, offsets: set<nat>, k: nat) returns (j: nat)
    requires k < |RemoveOffsets(s, offsets)|
    ensures j < |s| && j !in offsets
    ensures k + RemovedBelow(offsets, j) == j
    ensures RemoveOffsets(s, offsets)[k] == s[j]
    decreases |s|
  {
    var init := s[..|s| - 1];
    var r := RemoveOffsets(init, offsets);
    assert RemoveOffsets(s, offsets) == r + (if |s| - 1 in offsets then [] else [s[|s| - 1]]);
    if k < |r| {
      j := RemoveOffsetsOnlySurvivors(init, offsets, k);
      assert init[j] == s[j];
    } else {
      RemoveOffsetsLength(init, offsets);
      j := |s| - 1;
    }
  }

  /** The alarm the add sheet starts from: 06:30, enabled, weekdays, default sound, no tag. */
  function NewAlarmTemplate(id: Uuid): Alarm {
    Alarm(id, 6, 30, true, Weekdays, "default", None)
  }

  /** The template alarm schedules five repeating requests at 06:30, Monday to Friday. */
  lemma NewAlarmTemplateExpansion(id: Uuid)
    ensures |AlarmRequests(NewAlarmTemplate(id))| == 5
    ensures forall k :: 0 <= k < 5 ==>
      AlarmRequests(NewAlarmTemplate(id))[k] == Request(RequestId(id, Some(k + 2)), 6, 30, Some(k + 2), true, AlarmContent)
  {
  }

  /**
   * The toggle's setter: sets `isEnabled` of the first alarm equal to the
   * shown one and reschedules; when there is none, nothing happens.
   */
  method ToggleAlarm(app: AppState, shown: Alarm, newValue: bool)
    modifies app, app.scheduler.center
    ensures app.alarms == Toggled(old(app.alarms), shown, newValue)
    ensures shown in old(app.alarms) ==> app.scheduler.center.pending == Expand(app.alarms)
    ensures shown !in old(app.alarms) ==> app.alarms == old(app.alarms) && unchanged(app.scheduler.center)
    ensures app.tags == old(app.tags) && app.logs == old(app.logs)
    ensures app.isRinging == old(app.isRinging) && app.currentRingDate == old(app.currentRingDate)
  {
    var idx := FirstIndexOf(app.alarms, shown);
    if idx.Some? {
      ToggledAt(app.alarms, shown, newValue, idx.value);
      app.alarms := app.alarms[idx.value := app.alarms[idx.value].(isEnabled := newValue)];
      app.scheduler.Schedule(app.alarms);
    } else {
      ToggledAbsent(app.alarms, shown, newValue);
    }
  }

  /** The delete handler: removes the alarms at `offsets` and reschedules. */
  method DeleteAlarms(app: AppState, offsets: set<nat>)
    requires forall k :: k in offsets ==> k < |app.alarms|
    modifies app, app.scheduler.center
    ensures app.alarms == RemoveOffsets(old(app.alarms), offsets)
    ensures |app.alarms| == |old(app.alarms)| - |offsets|
    ensures app.scheduler.center.pending == Expand(app.alarms)
    ensures app.tags == old(app.tags) && app.logs == old(app.logs)
    ensures app.isRinging == old(app.isRinging) && app.currentRingDate == old(app.currentRingDate)
  {
    RemoveOffsetsLength(app.alarms, offsets);
    RemovedBelowAll(offsets, |app.alarms|);
    app.alarms := RemoveOffsets(app.alarms, offsets);
    app.scheduler.Schedule(app.alarms);
  }

  /** The add sheet's save handler: appends the new alarm and reschedules. */
  method AddAlarm(app: AppState, newAlarm: Alarm)
    modifies app, app.scheduler.center
    ensures app.alarms == old(app.alarms) + [newAlarm]
    ensures app.scheduler.center.pending == Expand(old(app.alarms)) + AlarmRequests(newAlarm)
    ensures app.tags == old(app.tags) && app.logs == old(app.logs)
    ensures app.isRinging == old(app.isRinging) && app.currentRingDate == old(app.currentRingDate)
  {
    app.alarms := app.alarms + [newAlarm];
    assert app.alarms[..|app.alarms| - 1] == old(app.alarms);
    app.scheduler.Schedule(app.alarms);
  }
}
