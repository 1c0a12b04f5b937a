/** The `Ratelimiter` of hnpixels/core.py (the class in hnpixels/hnpixels.py
    is the same code). Its one piece of state is `guard_time`, the earliest
    instant at which the next request may go out. The wall clock is a
    parameter `now`, and `lock` returns the duration it would sleep. */
module Limiting {

  /** The arguments `update_ratelimiter` passes to `unlock`. */
  datatype Limits = Limits(remaining: real, limit: real, reset: real)

  /** How long `lock` sleeps when called at `now`: exactly until the guard
      time, and not at all once it has passed. */
  function Wait(guard: real, now: real): (w: real)
    ensures w >= 0.0 && now + w >= guard
    ensures now < guard ==> now + w == guard
    ensures guard <= now ==> w == 0.0
  {
    if now < guard then guard - now else 0.0
  }

  /** The guard time after `unlock(remaining, limit, reset)` at `now`: a
      cooldown of `reset` seconds from now when no requests remain, otherwise
      no change. `limit` plays no part. */
  function Unlocked(guard: real, remaining: real, reset: real, now: real): real {
    if remaining == 0.0 then now + reset else guard
  }

  class Ratelimiter {
    var guardTime: real

    /** `Ratelimiter(warmup)`, constructed at `now`. */
    constructor (now: real, warmup: real)
      ensures guardTime == now + warmup
    {
      guardTime := now + warmup;
    }

    method Unlock(remaining: real, limit: real, reset: real, now: real)
      modifies this
      ensures guardTime == Unlocked(old(guardTime), remaining, reset, now)
      ensures remaining != 0.0 ==> guardTime == old(guardTime)
    {
      if remaining == 0.0 {
        guardTime := now + reset;
      }
    }

    /** `lock` called at `now`: returns how long it sleeps, and never changes
        the guard time, so the caller resumes at or after it. */
    method Lock(now: real) returns (wait: real)
      ensures wait == Wait(guardTime, now)
      ensures wait >= 0.0 && now + wait >= guardTime
      ensures now < guardTime ==> now + wait == guardTime
      ensures guardTime <= now ==> wait == 0.0
    {
      wait := 0.0;
      if now < guardTime {
        wait := guardTime - now;
      }
    }
  }

  /** After a cooldown of `reset` set at `t`, a `lock` at `t + d` (with
      `d <= reset`) sleeps `reset - d` and resumes exactly at `t + reset`. */
  lemma CooldownThenLock(guard: real, reset: real, t: real, d: real)
    requires 0.0 <= d <= reset
    ensures Wait(Unlocked(guard, 0.0, reset, t), t + d) == reset - d
  {
  }

  /** With requests remaining, `unlock` keeps the old guard, so a `lock`
      after it returns at once if the guard had passed. */
  lemma RemainingKeepsLockOpen(guard: real, remaining: real, limit: real, reset: real, t: real, later: real)
    requires remaining != 0.0 && guard <= t <= later
    ensures Wait(Unlocked(guard, remaining, reset, t), later) == 0.0
  {
  }
}
