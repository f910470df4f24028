/** Alarm definitions, as stored, listed and scheduled by the app. */
module AlarmModel {
  import opened Base

  /** How an alarm repeats; a closed enumeration with a string raw value. */
  datatype RepeatRule = Once | Daily | Weekdays | Weekends

  /**
   * An alarm definition. `hour` and `minute` are plain integers: nothing in
   * the type limits them to a clock time (see `HasClockTime`).
   * Equality is the structural equality of all seven fields.
   */
  datatype Alarm = Alarm(
    id: Uuid,
    hour: int,
    minute: int,
    isEnabled: bool,
    repeatRule: RepeatRule,
    soundName: string,
    nfcTagId: Option<Uuid>)

  /** An alarm whose time is a real time of day, 00:00 to 23:59. */
  predicate HasClockTime(a: Alarm) {
    0 <= a.hour <= 23 && 0 <= a.minute <= 59
  }

  /** `RepeatRule.allCases`: the cases in declaration order. */
  function AllCases(): seq<RepeatRule> {
    [Once, Daily, Weekdays, Weekends]
  }

  /** The `String` raw value of a rule, as it is encoded and displayed. */
  function RawValue(rule: RepeatRule): string {
    match rule
    case Once => "once"
    case Daily => "daily"
    case Weekdays => "weekdays"
    case Weekends => "weekends"
  }

  /** `RepeatRule(rawValue:)`, the failable initialiser decoding uses. */
  function FromRawValue(s: string): (r: Option<RepeatRule>)
    ensures r.Some? ==> RawValue(r.value) == s
  {
    if s == "once" then Some(Once)
    else if s == "daily" then Some(Daily)
    else if s == "weekdays" then Some(Weekdays)
    else if s == "weekends" then Some(Weekends)
    else None
  }

  /** Decoding the raw value of a rule gives the rule back. */
  lemma RawValueRoundTrip(rule: RepeatRule)
    ensures FromRawValue(RawValue(rule)) == Some(rule)
  {
  }

  /** Decoding accepts exactly the four raw values. */
  lemma FromRawValueAcceptsOnlyRawValues(s: string)
    ensures FromRawValue(s).Some? <==> exists rule :: rule in AllCases() && RawValue(rule) == s
  {
  }

  /** `allCases` lists every rule exactly once, in the order once, daily, weekdays, weekends. */
  lemma AllCasesIsExhaustive(rule: RepeatRule)
    ensures |AllCases()| == 4
    ensures rule in AllCases()
    ensures forall i, j :: 0 <= i < j < |AllCases()| ==> AllCases()[i] != AllCases()[j]
    ensures AllCases()[0] == Once && AllCases()[1] == Daily
    ensures AllCases()[2] == Weekdays && AllCases()[3] == Weekends
  {
  }

  /** Two alarms are equal exactly when all seven fields are, `id` and `nfcTagId` included. */
  lemma AlarmEqualityIsStructural(a: Alarm, b: Alarm)
    ensures a == b <==>
      a.id == b.id && a.hour == b.hour && a.minute == b.minute &&
      a.isEnabled == b.isEnabled && a.repeatRule == b.repeatRule &&
      a.soundName == b.soundName && a.nfcTagId == b.nfcTagId
  {
  }

  /** An alarm need not be bound to a tag, and its time need not be a clock time. */
  lemma AlarmFieldsAreUnconstrained(id: Uuid)
    ensures Alarm(id, 25, -1, true, Once, "default", None).nfcTagId.None?
    ensures !HasClockTime(Alarm(id, 25, -1, true, Once, "default", None))
  {
  }
}
