/** Sleep-log records and their derived duration. Instants are integer seconds. */
module SleepLogModel {
  import opened Base

  /** One sleep-log record: when it was made, an optional bedtime, the wake time and how long dismissal took. */
  datatype SleepLog = SleepLog(
    id: Uuid,
    date: int,
    bedtime: Option<int>,
    wakeTime: int,
    dismissalLatencySeconds: int)

  /** The computed `durationSeconds`: 0 without a bedtime, otherwise wake time minus bedtime, unclamped. */
  function DurationSeconds(log: SleepLog): int {
    match log.bedtime
    case None => 0
    case Some(bed) => log.wakeTime - bed
  }

  /** Without a bedtime the duration is 0; with one it is the signed gap to the wake time. */
  lemma DurationCases(log: SleepLog)
    ensures log.bedtime.None? ==> DurationSeconds(log) == 0
    ensures log.bedtime.Some? ==> DurationSeconds(log) + log.bedtime.value == log.wakeTime
  {
  }

  /** The duration is not clamped: a bedtime after the wake time gives a negative duration. */
  lemma DurationMayBeNegative(id: Uuid, bed: int, wake: int, latency: int)
    requires wake < bed
    ensures DurationSeconds(SleepLog(id, wake, Some(bed), wake, latency)) < 0
  {
  }

  /** The stored latency plays no part in the duration, and the duration none in the latency. */
  lemma DurationIgnoresLatency(log: SleepLog, latency: int)
    ensures DurationSeconds(log.(dismissalLatencySeconds := latency)) == DurationSeconds(log)
    ensures log.(dismissalLatencySeconds := latency).dismissalLatencySeconds == latency
  {
  }
}
