/**
 * The pull and push timers: when polling the hub for a new averaged model
 * is due, when publishing a delta is due, and the staleness metric.
 * Timestamps are `time.time()` readings in seconds; nothing here assumes
 * the clock is monotonic.
 */
module Timers {

  /** `current_time - self.last_pull_time >= self.check_update_interval` */
  predicate PullDue(now: real, lastPullTime: real, checkUpdateInterval: real) {
    now - lastPullTime >= checkUpdateInterval
  }

  /** `time.time() - self.last_send_time >= self.send_interval` */
  predicate PushDue(now: real, lastSendTime: real, sendInterval: real) {
    now - lastSendTime >= sendInterval
  }

  /**
   * `get_gradient_staleness`: seconds since the last send, or 0.0 while
   * `last_send_time` still holds its never-sent value 0. Once something has
   * been sent, the staleness reaches an interval exactly when a push with that
   * interval is due.
   */
  function Staleness(lastSendTime: real, now: real): (s: real)
    ensures lastSendTime == 0.0 ==> s == 0.0
    ensures lastSendTime != 0.0 ==> forall interval :: PushDue(now, lastSendTime, interval) <==> s >= interval
    ensures s == 0.0 <==> lastSendTime == 0.0 || now == lastSendTime
  {
    if lastSendTime == 0.0 then 0.0 else now - lastSendTime
  }

  /** Once due, a push stays due at every later reading until the timer moves. */
  lemma PushStaysDue(now: real, later: real, lastSendTime: real, sendInterval: real)
    requires PushDue(now, lastSendTime, sendInterval) && now <= later
    ensures PushDue(later, lastSendTime, sendInterval)
  {
  }
}
