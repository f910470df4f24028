/**
 * The single owner of the app's collections and of the ring state.
 * Instants are integer seconds and are passed in as `now`; the UUID a new
 * sleep log gets is passed in as `logId`.
 */
module App {
  import opened Base
  import opened AlarmModel
  import opened TagModel
  import opened SleepLogModel
  import opened Scheduler

  /** The log a dismissal at `now` records for a ring that started at `ringDate`. */
  function WakeLog(logId: Uuid, ringDate: int, now: int): SleepLog {
    SleepLog(logId, now, None, now, now - ringDate)
  }

  /** A dismissal log has no bedtime, wakes at `now`, stores the unclamped latency and so has duration 0. */
  lemma WakeLogFacts(logId: Uuid, ringDate: int, now: int)
    ensures WakeLog(logId, ringDate, now).bedtime.None?
    ensures WakeLog(logId, ringDate, now).wakeTime == now
    ensures WakeLog(logId, ringDate, now).dismissalLatencySeconds + ringDate == now
    ensures DurationSeconds(WakeLog(logId, ringDate, now)) == 0
    ensures now < ringDate ==> WakeLog(logId, ringDate, now).dismissalLatencySeconds < 0
  {
  }

  class AppState {
    var alarms: seq<Alarm>
    var tags: seq<NfcTag>
    var logs: seq<SleepLog>
    var isRinging: bool
    var currentRingDate: Option<int>
    const scheduler: AlarmScheduler

    /** A fresh state: empty collections, not ringing, no ring date. */
    constructor (scheduler: AlarmScheduler)
      ensures alarms == [] && tags == [] && logs == []
      ensures !isRinging && currentRingDate == None
      ensures this.scheduler == scheduler
    {
      alarms, tags, logs := [], [], [];
      isRinging, currentRingDate := false, None;
      this.scheduler := scheduler;
    }

    /**
     * Loads the three collections; a load that fails (None) leaves that
     * collection empty. The ring state is untouched.
     */
    method Bootstrap(storedAlarms: Option<seq<Alarm>>, storedTags: Option<seq<NfcTag>>, storedLogs: Option<seq<SleepLog>>)
      modifies this
      ensures alarms == (if storedAlarms.Some? then storedAlarms.value else [])
      ensures tags == (if storedTags.Some? then storedTags.value else [])
      ensures logs == (if storedLogs.Some? then storedLogs.value else [])
      ensures isRinging == old(isRinging) && currentRingDate == old(currentRingDate)
    {
      alarms := storedAlarms.GetOr([]);
      tags := storedTags.GetOr([]);
      logs := storedLogs.GetOr([]);
    }

    /** Starts ringing at `now`; a ring already in progress has its date overwritten. */
    method PresentRing(now: int)
      modifies this
      ensures isRinging && currentRingDate == Some(now)
      ensures alarms == old(alarms) && tags == old(tags) && logs == old(logs)
    {
      currentRingDate := Some(now);
      isRinging := true;
    }

    /**
     * Stops ringing. With a ring date, records one wake log at the head of
     * `logs`. The ring date itself is kept.
     */
    method DismissRing(now: int, logId: Uuid)
      modifies this
      ensures !isRinging
      ensures currentRingDate == old(currentRingDate)
      ensures old(currentRingDate).None? ==> logs == old(logs)
      ensures old(currentRingDate).Some? ==> logs == [WakeLog(logId, old(currentRingDate).value, now)] + old(logs)
      ensures alarms == old(alarms) && tags == old(tags)
    {
      if currentRingDate.None? {
        isRinging := false;
        return;
      }
      var ringDate := currentRingDate.value;
      var latency := now - ringDate;
      var log := SleepLog(logId, now, None, now, latency);
      logs := [log] + logs;
      isRinging := false;
    }
  }

  /** A second ring overwrites the date of the first. */
  method RepeatedRingOverwritesDate(app: AppState, first: int, second: int)
    modifies app
    ensures app.isRinging && app.currentRingDate == Some(second)
    ensures app.logs == old(app.logs)
  {
    app.PresentRing(first);
    app.PresentRing(second);
  }

  /** Since the ring date survives a dismissal, two dismissals after one ring record two logs. */
  method TwoDismissalsRecordTwoLogs(app: AppState, rang: int, first: int, second: int, id1: Uuid, id2: Uuid)
    modifies app
    ensures !app.isRinging && app.currentRingDate == Some(rang)
    ensures app.logs == [WakeLog(id2, rang, second), WakeLog(id1, rang, first)] + old(app.logs)
    ensures app.logs[1..] == [WakeLog(id1, rang, first)] + old(app.logs)
  {
    app.PresentRing(rang);
    app.DismissRing(first, id1);
    app.DismissRing(second, id2);
  }

  /** Ringing since 07:00:00 and dismissed at 07:00:40: the new head log has latency 40 and duration 0. */
  method DismissalAfterFortySeconds(app: AppState, logId: Uuid)
    modifies app
    ensures !app.isRinging
    ensures |app.logs| == |old(app.logs)| + 1 && app.logs[1..] == old(app.logs)
    ensures app.logs[0].dismissalLatencySeconds == 40 && DurationSeconds(app.logs[0]) == 0
  {
    app.PresentRing(7 * 3600);
    app.DismissRing(7 * 3600 + 40, logId);
  }
}
