/** The reconnect delay policy: a linear backoff in steps of one second, capped at thirty seconds. */
module Backoff {

  /** Milliseconds added to the delay each time a reconnect timer fires. */
  const ReconnectStep := 1000
  /** The delay grows only while it is below this many milliseconds. */
  const ReconnectCeiling := 30000

  /** The values `reconnectDelay` can take: a whole number of steps between 0 and the ceiling. */
  predicate ValidDelay(d: int)
  {
    0 <= d <= ReconnectCeiling && d % ReconnectStep == 0
  }

  function Min(a: int, b: int): int
  {
    if a <= b then a else b
  }

  /** What the reconnect timer does to `reconnectDelay` before it reconnects. */
  function NextDelay(d: int): (r: int)
    ensures ValidDelay(d) ==> ValidDelay(r)
    ensures d <= r <= d + ReconnectStep
    ensures r == d <==> d >= ReconnectCeiling
    ensures ValidDelay(d) ==> r == Min(ReconnectCeiling, d + ReconnectStep)
  {
    if d < ReconnectCeiling then d + ReconnectStep else d
  }

  /** The delay with which the k-th of a run of consecutive disconnects schedules its
      reconnect, counting from a delay of 0 (a fresh component or the last successful connect). */
  function DelayBefore(k: nat): int
    requires k >= 1
  {
    if k == 1 then 0 else NextDelay(DelayBefore(k - 1))
  }

  /** The k-th consecutive reconnect waits min(30000, (k-1)*1000) milliseconds. */
  lemma {:induction false} DelayBeforeClosedForm(k: nat)
    requires k >= 1
    ensures DelayBefore(k) == Min(ReconnectCeiling, (k - 1) * ReconnectStep)
    ensures ValidDelay(DelayBefore(k))
  {
    if k > 1 {
      DelayBeforeClosedForm(k - 1);
    }
  }

  /** Delays never shrink along a run of reconnects. */
  lemma {:induction false} DelayBeforeMonotone(j: nat, k: nat)
    requires 1 <= j <= k
    ensures DelayBefore(j) <= DelayBefore(k)
  {
    if j < k {
      DelayBeforeMonotone(j, k - 1);
    }
  }
}
