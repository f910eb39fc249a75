/** The pause between two loop steps, shared by the recorder and the observer loops. */
module Schedule {

  /** The sleep before the next step, given when the last step started, the interval and
      the time now: the time left until the next step is due, or 0 when the step overran
      the interval. */
  function NextSleep(lastExec: real, interval: real, now: real): (r: real)
    ensures r >= 0.0
    ensures r == 0.0 <==> now >= lastExec + interval
    ensures r > 0.0 ==> now + r == lastExec + interval
  {
    var sleep := (lastExec + interval) - now;
    if sleep <= 0.0 then 0.0 else sleep
  }

  /** The next step never starts before it is due, and never later than the end of an
      overrunning step. */
  lemma WakesOnTime(lastExec: real, interval: real, now: real)
    ensures now + NextSleep(lastExec, interval, now) >= lastExec + interval
    ensures now + NextSleep(lastExec, interval, now) == (if now >= lastExec + interval then now else lastExec + interval)
  {
  }
}
