/**
 * The average sleep figure of the statistics screen: the mean of the
 * positive log durations, split into hours and minutes, or "--" (None)
 * when there is none. All operands are non-negative, so Swift's
 * truncating `/` and `%` agree with Dafny's here.
 */
module Stats {
  import opened Base
  import opened SleepLogModel

  /** The durations of `logs` that are positive, in log order. */
  function PositiveDurations(logs: seq<SleepLog>): seq<int>
    decreases |logs|
  {
    if logs == [] then []
    else (if DurationSeconds(logs[0]) > 0 then [DurationSeconds(logs[0])] else []) + PositiveDurations(logs[1..])
  }

  function Sum(xs: seq<int>): int
    decreases |xs|
  {
    if xs == [] then 0 else xs[0] + Sum(xs[1..])
  }

  /** The integer mean of a non-empty list. */
  function Average(xs: seq<int>): int
    requires xs != []
  {
    Sum(xs) / |xs|
  }

  /** A duration is kept exactly when some log has it and it is positive. */
  lemma {:induction false} PositiveDurationsMembership(logs: seq<SleepLog>)
    ensures forall k :: 0 <= k < |PositiveDurations(logs)| ==> PositiveDurations(logs)[k] > 0
    ensures forall x :: x in PositiveDurations(logs) <==> exists i :: 0 <= i < |logs| && DurationSeconds(logs[i]) == x && x > 0
    ensures forall i :: 0 <= i < |logs| && DurationSeconds(logs[i]) > 0 ==> DurationSeconds(logs[i]) in PositiveDurations(logs)
    decreases |logs|
  {
    if logs != [] {
      PositiveDurationsMembership(logs[1..]);
      forall x ensures x in PositiveDurations(logs) <==> exists i :: 0 <= i < |logs| && DurationSeconds(logs[i]) == x && x > 0 {
        if exists i :: 0 <= i < |logs| && DurationSeconds(logs[i]) == x && x > 0 {
          var i :| 0 <= i < |logs| && DurationSeconds(logs[i]) == x && x > 0;
          if i > 0 {
            assert logs[1..][i - 1] == logs[i];
          }
        }
      }
    }
  }

  /** The number of logs whose duration is `x`. */
  function LogsWithDuration(logs: seq<SleepLog>, x: int): nat
    decreases |logs|
  {
    if logs == [] then 0
    else (if DurationSeconds(logs[0]) == x then 1 else 0) + LogsWithDuration(logs[1..], x)
  }

  /**
   * The filter drops nothing it should keep and keeps nothing twice: a
   * positive duration occurs as often as logs have it, any other value never.
   */
  lemma {:induction false} PositiveDurationsCounts(logs: seq<SleepLog>, x: int)
    ensures x > 0 ==> multiset(PositiveDurations(logs))[x] == LogsWithDuration(logs, x)
    ensures x <= 0 ==> multiset(PositiveDurations(logs))[x] == 0
    decreases |logs|
  {
    if logs != [] {
      PositiveDurationsCounts(logs[1..], x);
      var d := DurationSeconds(logs[0]);
      var head := if d > 0 then [d] else [];
      assert multiset(PositiveDurations(logs)) == multiset(head) + multiset(PositiveDurations(logs[1..]));
    }
  }

  /** A sum of values that are all at least `b` is at least `|xs| * b`. */
  lemma {:induction false} SumAtLeast(xs: seq<int>, b: int)
    requires forall i :: 0 <= i < |xs| ==> b <= xs[i]
    ensures |xs| * b <= Sum(xs)
    decreases |xs|
  {
    if xs != [] {
      SumAtLeast(xs[1..], b);
      assert |xs| * b == b + (|xs| - 1) * b;
    }
  }

  /** A sum of values that are all at most `b` is at most `|xs| * b`. */
  lemma {:induction false} SumAtMost(xs: seq<int>, b: int)
    requires forall i :: 0 <= i < |xs| ==> xs[i] <= b
    ensures Sum(xs) <= |xs| * b
    decreases |xs|
  {
    if xs != [] {
      SumAtMost(xs[1..], b);
      assert |xs| * b == b + (|xs| - 1) * b;
    }
  }

  /** The mean lies between the least and the greatest value. */
  lemma AverageWithinRange(xs: seq<int>)
    requires xs != []
    ensures exists i :: 0 <= i < |xs| && xs[i] <= Average(xs)
    ensures exists i :: 0 <= i < |xs| && Average(xs) <= xs[i]
  {
    var n, avg := |xs|, Average(xs);
    assert n * avg <= Sum(xs) < n * avg + n;
    assert n * (avg + 1) == n * avg + n;
    assert n * (avg - 1) == n * avg - n;
    if forall i :: 0 <= i < n ==> avg + 1 <= xs[i] {
      SumAtLeast(xs, avg + 1);
      assert false;
    }
    if forall i :: 0 <= i < n ==> xs[i] <= avg - 1 {
      SumAtMost(xs, avg - 1);
      assert false;
    }
  }

  /**
   * `avgSleep`: None ("--") exactly when no log has a positive duration;
   * otherwise hours and minutes of the mean positive duration, with the
   * minutes below 60 and the seconds dropped.
   */
  function AvgSleep(logs: seq<SleepLog>): (r: Option<(int, int)>)
    ensures r.None? <==> forall i :: 0 <= i < |logs| ==> DurationSeconds(logs[i]) <= 0
    ensures r.None? <==> PositiveDurations(logs) == []
    ensures r.Some? ==> r.value.0 >= 0 && 0 <= r.value.1 < 60
    ensures r.Some? ==>
      var avg := Average(PositiveDurations(logs));
      r.value.0 * 3600 + r.value.1 * 60 <= avg < r.value.0 * 3600 + r.value.1 * 60 + 60
  {
    PositiveDurationsMembership(logs);
    var durations := PositiveDurations(logs);
    if durations == [] then
      None
    else
      assert durations[0] in durations;
      SumAtLeast(durations, 1);
      var avg := Average(durations);
      var h := avg / 3600;
      var m := (avg % 3600) / 60;
      Some((h, m))
  }

  /** The mean is the mean of exactly the positive durations, and lies between the shortest and the longest of them. */
  lemma AvgSleepWithinPositiveDurations(logs: seq<SleepLog>)
    requires AvgSleep(logs).Some?
    ensures PositiveDurations(logs) != []
    ensures exists i :: 0 <= i < |logs| && DurationSeconds(logs[i]) > 0 && DurationSeconds(logs[i]) <= Average(PositiveDurations(logs))
    ensures exists i :: 0 <= i < |logs| && DurationSeconds(logs[i]) > 0 && Average(PositiveDurations(logs)) <= DurationSeconds(logs[i])
  {
    var ds := PositiveDurations(logs);
    PositiveDurationsMembership(logs);
    AverageWithinRange(ds);
    var a :| 0 <= a < |ds| && ds[a] <= Average(ds);
    var b :| 0 <= b < |ds| && Average(ds) <= ds[b];
    assert ds[a] in ds && ds[b] in ds;
  }

  /** A log without a bedtime, such as a dismissal log, does not take part in the average. */
  lemma NoBedtimeLogsIgnored(logs: seq<SleepLog>, log: SleepLog)
    requires log.bedtime.None?
    ensures PositiveDurations([log] + logs) == PositiveDurations(logs)
    ensures AvgSleep([log] + logs) == AvgSleep(logs)
  {
  }
}
