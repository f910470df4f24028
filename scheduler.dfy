/**
 * Turning the alarm collection into calendar notification requests.
 * Weekdays follow the calendar numbering 1 = Sunday ... 7 = Saturday.
 */
module Scheduler {
  import opened Base
  import opened AlarmModel

  /**
   * A request identifier: `alarm-<uuid>` when `weekday` is None,
   * `alarm-<uuid>-<weekday>` otherwise.
   */
  datatype RequestId = RequestId(alarmId: Uuid, weekday: Option<int>)

  /** The notification content every alarm request carries (the sound is not modelled). */
  datatype Content = Content(title: string, body: string, categoryIdentifier: string)

  const AlarmContent: Content := Content("Alarm", "Wake up", "ALARM_CATEGORY")

  /**
   * A notification request with a calendar trigger matching `hour`:`minute`
   * and, when present, `weekday`.
   */
  datatype Request = Request(
    id: RequestId,
    hour: int,
    minute: int,
    weekday: Option<int>,
    repeats: bool,
    content: Content)

  /** The weekdays a rule fires on, one request each; empty for the rules that give a single request. */
  function RuleWeekdays(rule: RepeatRule): seq<int> {
    match rule
    case Weekdays => [2, 3, 4, 5, 6]
    case Weekends => [1, 7]
    case _ => []
  }

  /** The one request an Once or Daily alarm gives. */
  function SingleRequest(a: Alarm): Request {
    Request(RequestId(a.id, None), a.hour, a.minute, None, a.repeatRule != Once, AlarmContent)
  }

  /** The repeating request of a weekly alarm for one weekday. */
  function WeeklyRequest(a: Alarm, weekday: int): Request {
    Request(RequestId(a.id, Some(weekday)), a.hour, a.minute, Some(weekday), true, AlarmContent)
  }

  function WeeklyRequests(a: Alarm, days: seq<int>): seq<Request> {
    seq(|days|, k requires 0 <= k < |days| => WeeklyRequest(a, days[k]))
  }

  /** The requests one alarm contributes to a scheduling pass. */
  function AlarmRequests(a: Alarm): seq<Request> {
    if !a.isEnabled then []
    else if a.repeatRule == Weekdays || a.repeatRule == Weekends then WeeklyRequests(a, RuleWeekdays(a.repeatRule))
    else [SingleRequest(a)]
  }

  /** The requests a scheduling pass installs for `alarms`, in alarm order. */
  function Expand(alarms: seq<Alarm>): seq<Request>
    decreases |alarms|
  {
    if alarms == [] then []
    else Expand(alarms[..|alarms| - 1]) + AlarmRequests(alarms[|alarms| - 1])
  }

  /** The number of requests an alarm gives, by rule. */
  function RequestCount(a: Alarm): nat {
    if !a.isEnabled then 0
    else match a.repeatRule
      case Once => 1
      case Daily => 1
      case Weekdays => 5
      case Weekends => 2
  }

  function TotalRequestCount(alarms: seq<Alarm>): nat
    decreases |alarms|
  {
    if alarms == [] then 0
    else TotalRequestCount(alarms[..|alarms| - 1]) + RequestCount(alarms[|alarms| - 1])
  }

  /** The scan's test for whether a weekday of 1...7 gets a request under `rule`. */
  predicate IncludesWeekday(rule: RepeatRule, weekday: int) {
    var isWeekday := 2 <= weekday <= 6;
    (rule == Weekdays && isWeekday) || (rule == Weekends && (weekday == 1 || weekday == 7))
  }

  /** The weekdays among 1 .. next - 1 that the scan includes, ascending. */
  function ScannedWeekdays(rule: RepeatRule, next: int): seq<int>
    decreases next
  {
    if next <= 1 then []
    else ScannedWeekdays(rule, next - 1) + (if IncludesWeekday(rule, next - 1) then [next - 1] else [])
  }

  /** Scanning the whole week 1...7 picks exactly the rule's weekdays, in ascending order. */
  lemma WeekScanMatchesRule(rule: RepeatRule)
    ensures ScannedWeekdays(rule, 8) == RuleWeekdays(rule)
  {
  }

  /** Once, Daily, Weekdays and Weekends each give the requests the rule promises; disabled alarms give none. */
  lemma AlarmRequestsByRule(a: Alarm)
    ensures !a.isEnabled ==> AlarmRequests(a) == []
    ensures a.isEnabled && a.repeatRule == Once ==>
      AlarmRequests(a) == [Request(RequestId(a.id, None), a.hour, a.minute, None, false, AlarmContent)]
    ensures a.isEnabled && a.repeatRule == Daily ==>
      AlarmRequests(a) == [Request(RequestId(a.id, None), a.hour, a.minute, None, true, AlarmContent)]
    ensures a.isEnabled && a.repeatRule == Weekdays ==>
      |AlarmRequests(a)| == 5 &&
      forall k :: 0 <= k < 5 ==>
        AlarmRequests(a)[k] == Request(RequestId(a.id, Some(k + 2)), a.hour, a.minute, Some(k + 2), true, AlarmContent)
    ensures a.isEnabled && a.repeatRule == Weekends ==>
      AlarmRequests(a) == [Request(RequestId(a.id, Some(1)), a.hour, a.minute, Some(1), true, AlarmContent),
                           Request(RequestId(a.id, Some(7)), a.hour, a.minute, Some(7), true, AlarmContent)]
  {
  }

  /** Every request of an alarm carries its id, hour and minute, the shared content, and the weekday its id names. */
  lemma AlarmRequestFacts(a: Alarm, k: int)
    requires 0 <= k < |AlarmRequests(a)|
    ensures a.isEnabled
    ensures AlarmRequests(a)[k].id.alarmId == a.id
    ensures AlarmRequests(a)[k].hour == a.hour && AlarmRequests(a)[k].minute == a.minute
    ensures AlarmRequests(a)[k].id.weekday == AlarmRequests(a)[k].weekday
    ensures AlarmRequests(a)[k].content == AlarmContent
    ensures AlarmRequests(a)[k].weekday.Some? ==> 1 <= AlarmRequests(a)[k].weekday.value <= 7
  {
  }

  /** The ids of one alarm's requests are pairwise distinct. */
  lemma AlarmRequestIdsDistinct(a: Alarm, k: int, l: int)
    requires 0 <= k < l < |AlarmRequests(a)|
    ensures AlarmRequests(a)[k].id != AlarmRequests(a)[l].id
  {
  }

  /** Expansion follows the order of the input: the requests of a concatenation are the concatenated requests. */
  lemma {:induction false} ExpandAppend(s: seq<Alarm>, t: seq<Alarm>)
    ensures Expand(s + t) == Expand(s) + Expand(t)
    decreases |t|
  {
    if t == [] {
      assert s + t == s;
    } else {
      var t' := t[..|t| - 1];
      assert (s + t)[..|s + t| - 1] == s + t';
      assert (s + t)[|s + t| - 1] == t[|t| - 1];
      ExpandAppend(s, t');
    }
  }

  /** The number of requests is the sum over the alarms of 0, 1, 5 or 2 according to each one's rule. */
  lemma {:induction false} ExpandLength(s: seq<Alarm>)
    ensures |Expand(s)| == TotalRequestCount(s)
    decreases |s|
  {
    if s != [] {
      ExpandLength(s[..|s| - 1]);
    }
  }

  /** Every installed request comes from an enabled alarm of the input. */
  lemma {:induction false} ExpandOrigin(s: seq<Alarm>, k: int) returns (j: int, l: int)
    requires 0 <= k < |Expand(s)|
    ensures 0 <= j < |s| && s[j].isEnabled
    ensures 0 <= l < |AlarmRequests(s[j])| && Expand(s)[k] == AlarmRequests(s[j])[l]
    decreases |s|
  {
    var init := s[..|s| - 1];
    if k < |Expand(init)| {
      j, l := ExpandOrigin(init, k);
    } else {
      j, l := |s| - 1, k - |Expand(init)|;
      AlarmRequestFacts(s[j], l);
    }
  }

  /** Every request carries the hour and minute of an enabled alarm with the id it names. */
  lemma ExpandCarriesAlarmTime(s: seq<Alarm>, k: int)
    requires 0 <= k < |Expand(s)|
    ensures exists j :: (0 <= j < |s| && s[j].isEnabled && s[j].id == Expand(s)[k].id.alarmId &&
                         s[j].hour == Expand(s)[k].hour && s[j].minute == Expand(s)[k].minute)
    ensures Expand(s)[k].weekday == Expand(s)[k].id.weekday && Expand(s)[k].content == AlarmContent
  {
  }

  /** When every alarm has a clock time, so has every request: the range is a precondition, not a type invariant. */
  lemma ExpandKeepsClockTimes(s: seq<Alarm>, k: int)
    requires forall i :: 0 <= i < |s| ==> HasClockTime(s[i])
    requires 0 <= k < |Expand(s)|
    ensures 0 <= Expand(s)[k].hour <= 23 && 0 <= Expand(s)[k].minute <= 59
  {
  }

  /** Enabled alarms have pairwise distinct ids. */
  predicate EnabledIdsDistinct(s: seq<Alarm>) {
    forall i, j :: 0 <= i < j < |s| && s[i].isEnabled && s[j].isEnabled ==> s[i].id != s[j].id
  }

  /** Given distinct ids among the enabled alarms, the installed request ids are pairwise distinct. */
  lemma {:induction false} ExpandIdsDistinct(s: seq<Alarm>, k: int, m: int)
    requires EnabledIdsDistinct(s)
    requires 0 <= k < m < |Expand(s)|
    ensures Expand(s)[k].id != Expand(s)[m].id
    decreases |s|
  {
    var init := s[..|s| - 1];
    var last := s[|s| - 1];
    var n := |Expand(init)|;
    if m < n {
      assert EnabledIdsDistinct(init) by {
        forall i, j | 0 <= i < j < |init| && init[i].isEnabled && init[j].isEnabled
          ensures init[i].id != init[j].id
        {
          assert init[i] == s[i] && init[j] == s[j];
        }
      }
      ExpandIdsDistinct(init, k, m);
    } else if n <= k {
      AlarmRequestIdsDistinct(last, k - n, m - n);
    } else {
      var j, l := ExpandOrigin(init, k);
      assert init[j] == s[j];
      AlarmRequestFacts(s[j], l);
      AlarmRequestFacts(last, m - n);
      assert s[j].id != last.id;
    }
  }

  /** The requests in `reqs` that belong to alarm `id`, in order. */
  function RequestsFor(reqs: seq<Request>, id: Uuid): seq<Request>
    decreases |reqs|
  {
    if reqs == [] then []
    else RequestsFor(reqs[..|reqs| - 1], id) + (if reqs[|reqs| - 1].id.alarmId == id then [reqs[|reqs| - 1]] else [])
  }

  /** The alarms in `s` with identifier `id`, in order. */
  function AlarmsWithId(s: seq<Alarm>, id: Uuid): seq<Alarm>
    decreases |s|
  {
    if s == [] then []
    else AlarmsWithId(s[..|s| - 1], id) + (if s[|s| - 1].id == id then [s[|s| - 1]] else [])
  }

  lemma {:induction false} RequestsForAppend(r: seq<Request>, t: seq<Request>, id: Uuid)
    ensures RequestsFor(r + t, id) == RequestsFor(r, id) + RequestsFor(t, id)
    decreases |t|
  {
    if t == [] {
      assert r + t == r;
    } else {
      var t' := t[..|t| - 1];
      assert (r + t)[..|r + t| - 1] == r + t';
      assert (r + t)[|r + t| - 1] == t[|t| - 1];
      RequestsForAppend(r, t', id);
    }
  }

  /** An alarm's requests all belong to it. */
  lemma {:induction false} RequestsForOneAlarm(a: Alarm, id: Uuid, rs: seq<Request>)
    requires forall k :: 0 <= k < |rs| ==> rs[k].id.alarmId == a.id
    ensures RequestsFor(rs, id) == if a.id == id then rs else []
    decreases |rs|
  {
    if rs != [] {
      RequestsForOneAlarm(a, id, rs[..|rs| - 1]);
    }
  }

  /** The requests installed for alarm `id` are exactly the expansion of the alarms that carry `id`. */
  lemma {:induction false} ExpandForAlarm(s: seq<Alarm>, id: Uuid)
    ensures RequestsFor(Expand(s), id) == Expand(AlarmsWithId(s, id))
    decreases |s|
  {
    if s != [] {
      var init, last := s[..|s| - 1], s[|s| - 1];
      ExpandForAlarm(init, id);
      RequestsForAppend(Expand(init), AlarmRequests(last), id);
      forall k | 0 <= k < |AlarmRequests(last)| ensures AlarmRequests(last)[k].id.alarmId == last.id {
        AlarmRequestFacts(last, k);
      }
      RequestsForOneAlarm(last, id, AlarmRequests(last));
      if last.id == id {
        assert Expand([last]) == AlarmRequests(last) by {
          assert [last][..0] == [];
        }
        calc {
          RequestsFor(Expand(s), id);
          RequestsFor(Expand(init) + AlarmRequests(last), id);
          RequestsFor(Expand(init), id) + AlarmRequests(last);
          Expand(AlarmsWithId(init, id)) + Expand([last]);
          { ExpandAppend(AlarmsWithId(init, id), [last]); }
          Expand(AlarmsWithId(init, id) + [last]);
          Expand(AlarmsWithId(s, id));
        }
      } else {
        calc {
          RequestsFor(Expand(s), id);
          RequestsFor(Expand(init) + AlarmRequests(last), id);
          RequestsFor(Expand(init), id) + [];
          Expand(AlarmsWithId(init, id));
          { assert AlarmsWithId(s, id) == AlarmsWithId(init, id) + [];
            assert AlarmsWithId(init, id) + [] == AlarmsWithId(init, id); }
          Expand(AlarmsWithId(s, id));
        }
      }
    }
  }

  /** When every alarm with identifier `id` is disabled, no request is installed for `id`. */
  lemma {:induction false} NoRequestsForDisabledAlarm(s: seq<Alarm>, id: Uuid)
    requires forall i :: 0 <= i < |s| && s[i].id == id ==> !s[i].isEnabled
    ensures RequestsFor(Expand(s), id) == []
    decreases |s|
  {
    if s != [] {
      var init, last := s[..|s| - 1], s[|s| - 1];
      NoRequestsForDisabledAlarm(init, id);
      RequestsForAppend(Expand(init), AlarmRequests(last), id);
      forall k | 0 <= k < |AlarmRequests(last)| ensures AlarmRequests(last)[k].id.alarmId == last.id {
        AlarmRequestFacts(last, k);
      }
      RequestsForOneAlarm(last, id, AlarmRequests(last));
    }
  }

  /**
   * The pending notification requests of the host's notification center.
   * Removing all empties it, adding appends one request.
   */
  class NotificationCenter {
    var pending: seq<Request>

    constructor ()
      ensures pending == []
    {
      pending := [];
    }

    method RemoveAllPendingNotificationRequests()
      modifies this
      ensures pending == []
    {
      pending := [];
    }

    method Add(req: Request)
      modifies this
      ensures pending == old(pending) + [req]
    {
      pending := pending + [req];
    }
  }

  /** Installs the requests for an alarm collection into a notification center. */
  class AlarmScheduler {
    const center: NotificationCenter

    constructor (center: NotificationCenter)
      ensures this.center == center
    {
      this.center := center;
    }

    /**
     * Clears every pending request, then adds the requests of each enabled
     * alarm in order. What is pending afterwards depends only on `alarms`.
     */
    method Schedule(alarms: seq<Alarm>)
      modifies center
      ensures center.pending == Expand(alarms)
    {
      center.RemoveAllPendingNotificationRequests();
      for i := 0 to |alarms|
        invariant center.pending == Expand(alarms[..i])
      {
        var alarm := alarms[i];
        assert alarms[..i + 1][..i] == alarms[..i];
        if alarm.isEnabled {
          var repeats: bool;
          match alarm.repeatRule {
            case Once => repeats := false;
            case Daily => repeats := true;
            case Weekdays => repeats := true;
            case Weekends => repeats := true;
          }
          if alarm.repeatRule == Weekdays || alarm.repeatRule == Weekends {
            ghost var before := center.pending;
            for weekday := 1 to 8
              invariant center.pending == before + WeeklyRequests(alarm, ScannedWeekdays(alarm.repeatRule, weekday))
            {
              var included := IncludesWeekday(alarm.repeatRule, weekday);
              if included {
                center.Add(Request(RequestId(alarm.id, Some(weekday)), alarm.hour, alarm.minute, Some(weekday), true, AlarmContent));
              }
            }
            WeekScanMatchesRule(alarm.repeatRule);
          } else {
            center.Add(Request(RequestId(alarm.id, None), alarm.hour, alarm.minute, None, repeats, AlarmContent));
          }
        }
      }
      assert alarms[..|alarms|] == alarms;
    }
  }
}
