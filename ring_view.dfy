/** The emergency-unlock path of the ring screen. */
module RingView {
  import opened Base
  import opened App

  /**
   * Dismisses the ring only when the credential check succeeded;
   * a failed check changes nothing.
   */
  method DismissIfAuthenticated(app: AppState, authenticated: bool, now: int, logId: Uuid)
    modifies app
    ensures !authenticated ==> unchanged(app)
    ensures authenticated ==> !app.isRinging && app.currentRingDate == old(app.currentRingDate)
    ensures authenticated && old(app.currentRingDate).None? ==> app.logs == old(app.logs)
    ensures authenticated && old(app.currentRingDate).Some? ==>
      app.logs == [WakeLog(logId, old(app.currentRingDate).value, now)] + old(app.logs)
    ensures app.alarms == old(app.alarms) && app.tags == old(app.tags)
  {
    if authenticated {
      app.DismissRing(now, logId);
    }
  }
}
