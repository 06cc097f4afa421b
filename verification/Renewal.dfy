/** Renewal of a granted mapping: each renewal is planned for the middle of the lifetime that
    is left (section 11.2.1 of RFC 6887). */
module Renewal {
  import opened Types
  import opened FlowMachine
  import opened Retransmission

  /** Whole seconds of lifetime left at a clock reading in microseconds. */
  function Left(end: int, now: int): int { end - now / SECOND }

  /** The flow after its renewal timer fired in the outside world env. */
  function Fire(f: Flow, env: Env): Flow {
    RunFlow(env, 0, f, Link(true, false), FlowTimedOut, None).0
  }

  /** A timer set for the middle of what is left lies strictly between now and the end,
      and when it fires at most half is left, rounded up. */
  lemma MiddleIsInside(end: int, now: int)
    requires Left(end, now) >= 2
    ensures var timer := now + HalfLeft(end, now) * SECOND;
            && now < timer < end * SECOND
            && Left(end, timer) == (Left(end, now) + 1) / 2
  {
    var half := HalfLeft(end, now);
    assert (now + half * SECOND) / SECOND == now / SECOND + half;
  }

  /** What a fired renewal timer does while the clock stands at t, no later than the end of
      the mapping: with at least two seconds left and a working socket the renewal is sent and
      the next one is planned inside the rest of the lifetime; otherwise the flow
      falls back to a plain send. */
  lemma FireRenewsOrFallsBack(f: Flow, env: Env, t: int)
    requires f.state == WaitForLifetimeRenew && RetxOk(f)
    requires Still(env, t) && t <= f.recvLifetime * SECOND
    ensures var f' := Fire(f, env);
            if env(0).ok && Left(f.recvLifetime, t) >= 2 then
              && f' == Transmitted(f).(timeout := t + HalfLeft(f.recvLifetime, t) * SECOND)
              && t < f'.timeout < f.recvLifetime * SECOND
              && Left(f.recvLifetime, f'.timeout) == (Left(f.recvLifetime, t) + 1) / 2
            else
              f'.state == WaitResp || f'.state == Failed
  {
    var link := Link(true, false);
    var f0 := f.(state := SendRenew);
    var (f1, e1) := Handle(HSendRenew, f0, link, None, env(0));
    assert Fire(f, env) == RunFlow(env, 1, f1, link, e1, None).0;
    if env(0).ok && Left(f.recvLifetime, t) >= 2 {
      assert e1 == MsgSent;
      assert HandlerFor(SendRenew, WaitForLifetimeRenew) == None;
      MiddleIsInside(f.recvLifetime, t);
    } else {
      assert Left(f.recvLifetime, t) >= 0;
      assert e1 == SendFailed;
      SendingChain(env, 1, f1, link, SendFailed, None, t);
    }
  }

  /** Later than the end the code does not fall back: it sends a renewal, plans the next one for a
      time that has passed, and stays among the succeeded flows, ready to do the same again. */
  lemma LateFireStays(f: Flow, env: Env, t: int)
    requires f.state == WaitForLifetimeRenew && Still(env, t)
    requires Left(f.recvLifetime, t) < 0 && env(0).ok
    ensures var f' := Fire(f, env);
            && f' == Transmitted(f).(timeout := t + HalfLeft(f.recvLifetime, t) * SECOND)
            && f'.timeout < t && Left(f'.recvLifetime, t) < 0
  {
    var link := Link(true, false);
    var (f1, e1) := Handle(HSendRenew, f.(state := SendRenew), link, None, env(0));
    assert e1 == MsgSent;
    assert Fire(f, env) == RunFlow(env, 1, f1, link, e1, None).0;
    assert HandlerFor(SendRenew, WaitForLifetimeRenew) == None;
  }

  /** So a fired timer ends the renewals exactly when the socket fails or at most one second
      of the lifetime is left, but none of it is overdrawn. */
  lemma FallsBackExactly(f: Flow, env: Env, t: int)
    requires f.state == WaitForLifetimeRenew && RetxOk(f) && Still(env, t)
    ensures Fire(f, env).state != WaitForLifetimeRenew
            <==> !env(0).ok || 0 <= Left(f.recvLifetime, t) <= 1
  {
    var link := Link(true, false);
    var (f1, e1) := Handle(HSendRenew, f.(state := SendRenew), link, None, env(0));
    assert Fire(f, env) == RunFlow(env, 1, f1, link, e1, None).0;
    if e1 == SendFailed {
      SendingChain(env, 1, f1, link, SendFailed, None, t);
    } else {
      assert HandlerFor(SendRenew, WaitForLifetimeRenew) == None;
    }
  }

  // ----- runs of renewals without any reply ------------------------------------------

  /** Every timer fires in a still clock, not early, and no later than the end of the mapping,
      and every one of the firings renewed. */
  ghost predicate RenewedInTime(f: Flow, fires: seq<Env>)
    decreases |fires|
  {
    fires == [] ||
    var t := fires[0](0).now;
    && Still(fires[0], t) && f.timeout <= t <= f.recvLifetime * SECOND
    && Fire(f, fires[0]).state == WaitForLifetimeRenew
    && RenewedInTime(Fire(f, fires[0]), fires[1..])
  }

  function Pow2(n: nat): nat { if n == 0 then 1 else 2 * Pow2(n - 1) }

  /** Without a reply the number of renewals is logarithmic in the lifetime left at the first
      of them: n of them need more than 2^(n-1) seconds. */
  lemma {:induction false} RenewalsAreLogarithmic(f: Flow, fires: seq<Env>)
    requires f.state == WaitForLifetimeRenew && RetxOk(f)
    requires fires != [] && RenewedInTime(f, fires)
    ensures Pow2(|fires| - 1) < Left(f.recvLifetime, fires[0](0).now)
    decreases |fires|
  {
    var t := fires[0](0).now;
    FireRenewsOrFallsBack(f, fires[0], t);
    var f' := Fire(f, fires[0]);
    var left := Left(f.recvLifetime, t);
    if |fires| > 1 {
      var rest := fires[1..];
      RenewalsAreLogarithmic(f', rest);
      var t' := rest[0](0).now;
      assert f'.timeout <= t' && f'.recvLifetime == f.recvLifetime;
      LeftFalls(f.recvLifetime, f'.timeout, t');
      assert Pow2(|rest| - 1) < (left + 1) / 2;
      assert Pow2(|fires| - 1) == 2 * Pow2(|rest| - 1);
    }
  }

  lemma LeftFalls(end: int, t: int, t': int)
    requires t <= t'
    ensures Left(end, t') <= Left(end, t)
  {
  }

  /** From a success reply on: the lifetime left at the first renewal is below the
      granted one, so the granted lifetime bounds the number of renewals. */
  lemma RenewalsPerGrant(f: Flow, msg: Msg, sys: Sys, fires: seq<Env>)
    requires f.state == WaitForLifetimeRenew && RetxOk(f)
    requires 0 < msg.lifetime && msg.received == sys.now / SECOND <= LONG_MAX
    requires fires != [] && RenewedInTime(HandleSuccess(f, msg, sys).0, fires)
    ensures Pow2(|fires| - 1) < msg.lifetime
  {
    var g := HandleSuccess(f, msg, sys).0;
    RenewalsAreLogarithmic(g, fires);
    assert HalfLeft(g.recvLifetime, sys.now) >= 0;
    LeftFalls(g.recvLifetime, sys.now, fires[0](0).now);
  }

  /** The end of a lifetime and the timers derived from it, at the reply and at each renewal, stay
      within a signed long, also for a reply that grants more than fits. */
  lemma TimersStayInRange(f: Flow, msg: Msg, sys: Sys)
    requires 0 <= msg.received <= LONG_MAX && 0 < sys.now && sys.now / SECOND <= LONG_MAX
    ensures var g := HandleSuccess(f, msg, sys).0;
            && 0 <= g.recvLifetime <= LONG_MAX
            && 0 <= g.timeout / SECOND <= LONG_MAX
            && (msg.lifetime > 0 ==> g.timeout > 0)
  {
    RenewalTimerInRange(LifetimeEnd(msg), sys.now);
  }

  lemma RenewalTimerInRange(end: int, now: int)
    requires 0 <= end <= LONG_MAX && 0 < now && now / SECOND <= LONG_MAX
    ensures 0 <= (now + HalfLeft(end, now) * SECOND) / SECOND <= LONG_MAX
    ensures now / SECOND <= end ==> now + HalfLeft(end, now) * SECOND >= now
  {
    var half := HalfLeft(end, now);
    assert (now + half * SECOND) / SECOND == now / SECOND + half;
  }

  /** ... for any clock at which the renewal timer fires. */
  lemma RenewedTimersStayInRange(f: Flow, link: Link, sys: Sys)
    requires 0 <= f.recvLifetime <= LONG_MAX && 0 < sys.now && sys.now / SECOND <= LONG_MAX
    requires 0 <= f.timeout / SECOND <= LONG_MAX
    ensures var g := HandleSendRenew(f, link, sys).0;
            g.recvLifetime == f.recvLifetime && 0 <= g.timeout / SECOND <= LONG_MAX
  {
    RenewalTimerInRange(f.recvLifetime, sys.now);
  }
}
