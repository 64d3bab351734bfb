/** The plugin's state and its cooldown gate (`MyPlugin.__init__`, `MyPlugin.is_on_cooldown`). */
module Cooldown {

  /** The plugin instance's state. Times are seconds on the wall clock.
      `period` is the configured `cooldown_period`, fixed at construction;
      `lastCalled` is `last_called_time`, the completion time of the last fetch. */
  datatype Plugin = Plugin(period: real, lastCalled: real)

  /** The pair returned by the gate: whether a call is blocked, and for how long. */
  datatype Gate = Gate(onCooldown: bool, remaining: real)

  function Max(a: real, b: real): real {
    if a < b then b else a
  }

  /** A freshly constructed plugin: it has never fetched, and its timestamp is 0. */
  function Init(period: real): (p: Plugin)
    ensures p.period == period
    ensures forall now :: IsOnCooldown(p, now).onCooldown <==> now < period
  {
    Plugin(period, 0.0)
  }

  /** The gate at time `now`. */
  function IsOnCooldown(p: Plugin, now: real): (g: Gate)
    ensures g.remaining >= 0.0
    ensures g.onCooldown <==> g.remaining > 0.0
    ensures g.onCooldown <==> now < p.lastCalled + p.period
    ensures g.onCooldown ==> now + g.remaining == p.lastCalled + p.period
  {
    var elapsed := now - p.lastCalled;
    Gate(elapsed < p.period, Max(0.0, p.period - elapsed))
  }

  /** With no update in between, waiting never increases the remaining time. */
  lemma RemainingNonIncreasing(p: Plugin, earlier: real, later: real)
    requires earlier <= later
    ensures IsOnCooldown(p, later).remaining <= IsOnCooldown(p, earlier).remaining
    ensures IsOnCooldown(p, later).onCooldown ==> IsOnCooldown(p, earlier).onCooldown
  {
  }

  /** Once the clock is past the last completion, the remaining time is at most the period. */
  lemma RemainingAtMostPeriod(p: Plugin, now: real)
    requires now >= p.lastCalled
    ensures IsOnCooldown(p, now).remaining <= Max(0.0, p.period)
  {
  }
}
