/** The keepalive goroutine of a session in real time: one `connection` call at once, then one
    `keepalive` call per tick of a 45-second ticker, until the context is cancelled.

    Times are in milliseconds.  The environment is given by functions of the call's number: how long
    the call would take, what the API would answer, and which case `select` picks when both are ready.
    Cancelling the context makes a pending or later call return at once, with an error. */
module KeepaliveTiming {
  import opened Session

  const PERIOD: nat := 45000

  datatype Attempt = Attempt(kind: Activity, start: nat, end: nat, ok: bool)

  function Max(a: nat, b: nat): nat { if a < b then b else a }

  /** How often a ticker created at `base` has fired by time `t`. */
  function Ticks(base: nat, t: nat): nat
    requires base <= t
  {
    (t - base) / PERIOD
  }

  function NextTick(base: nat, t: nat): nat
    requires base <= t
  {
    base + (Ticks(base, t) + 1) * PERIOD
  }

  /** One call: it ends when the API answers or the context is cancelled, whichever is first. */
  function Call(kind: Activity, start: nat, latency: nat, answer: bool, cancelAt: nat): Attempt {
    var done := start + latency;
    if done <= cancelAt then Attempt(kind, start, done, answer)
    else Attempt(kind, start, Max(start, cancelAt), false)
  }

  /** A call has the API's answer if that comes in time, and fails at the cancellation otherwise. */
  predicate Outcome(a: Attempt, latency: nat, answer: bool, cancelAt: nat) {
    if a.start + latency <= cancelAt then a.end == a.start + latency && a.ok == answer
    else a.end == Max(a.start, cancelAt) && !a.ok
  }

  predicate AllAnswered(s: seq<Attempt>, latency: nat -> nat, answer: nat -> bool, cancelAt: nat) {
    forall k :: 0 <= k < |s| ==> Outcome(s[k], latency(k), answer(k), cancelAt)
  }

  lemma OneMoreAnswered(s: seq<Attempt>, kind: Activity, start: nat, latency: nat -> nat, answer: nat -> bool, cancelAt: nat)
    requires AllAnswered(s, latency, answer, cancelAt)
    ensures AllAnswered(s + [Call(kind, start, latency(|s|), answer(|s|), cancelAt)], latency, answer, cancelAt)
  {
  }

  /** What is promised of call number `k`. */
  predicate AttemptOk(s: seq<Attempt>, k: nat, begin: nat, limit: nat, cancelAt: nat)
    requires k < |s|
  {
    && s[k].start <= s[k].end <= s[k].start + limit
    && s[k].end <= Max(begin, cancelAt)
    && (s[k].ok ==> s[k].end <= cancelAt)               // success only before cancellation
    && if k == 0 then s[0].kind == ConnectionActivity && s[0].start == begin
       else
         && s[k].kind == KeepaliveActivity
         && s[0].end <= s[k].start && s[k - 1].end <= s[k].start
         && k <= (s[k].start - s[0].end) / 45000        // never more calls than ticks, plus the first
         && (k == 1 ==> s[1].start <= s[0].end + 45000)
         && (k > 1 ==> s[k].start <= s[k - 1].start + Max(45000, limit))
  }

  predicate Series(s: seq<Attempt>, begin: nat, limit: nat, cancelAt: nat) {
    |s| > 0 && forall k :: 0 <= k < |s| ==> AttemptOk(s, k, begin, limit, cancelAt)
  }

  lemma SeriesGrows(s: seq<Attempt>, a: Attempt, begin: nat, limit: nat, cancelAt: nat)
    requires Series(s, begin, limit, cancelAt)
    requires AttemptOk(s + [a], |s|, begin, limit, cancelAt)
    ensures Series(s + [a], begin, limit, cancelAt)
  {
    forall k | 0 <= k < |s|
      ensures AttemptOk(s + [a], k, begin, limit, cancelAt)
    {
      assert AttemptOk(s, k, begin, limit, cancelAt);
    }
  }

  /** When the next tick is received: at once if one is buffered, else when the ticker fires. */
  function Received(base: nat, now: nat, buffered: bool): nat
    requires base <= now
  {
    if buffered then now else NextTick(base, now)
  }

  /** `last` is when the buffer was last emptied; it is full if and only if a tick has come since. */
  lemma ReceivedSoon(base: nat, last: nat, now: nat, buffered: bool)
    requires base <= last <= now
    requires buffered <==> Ticks(base, now) > Ticks(base, last)
    ensures now <= Received(base, now, buffered) <= Max(now, last + PERIOD)
    ensures Ticks(base, last) < Ticks(base, Received(base, now, buffered))
    ensures buffered || now < Received(base, now, buffered)
  {
  }

  lemma TicksMonotone(base: nat, t: nat, u: nat)
    requires base <= t <= u
    ensures Ticks(base, t) <= Ticks(base, u)
  {
  }

  /** A call made when a tick is received continues the series. */
  lemma NextCallContinues(s: seq<Attempt>, last: nat, tick: nat, latency: nat, answer: bool,
                          begin: nat, limit: nat, cancelAt: nat)
    requires Series(s, begin, limit, cancelAt) && latency <= limit
    requires s[|s| - 1].end <= tick <= cancelAt && s[0].end <= last <= tick
    requires last == if |s| == 1 then s[0].end else s[|s| - 1].start
    requires tick <= last + Max(PERIOD, if |s| == 1 then 0 else limit)
    requires |s| <= Ticks(s[0].end, tick)
    ensures Series(s + [Call(KeepaliveActivity, tick, latency, answer, cancelAt)], begin, limit, cancelAt)
  {
    var a := Call(KeepaliveActivity, tick, latency, answer, cancelAt);
    assert (s + [a])[|s| - 1] == s[|s| - 1];
    SeriesGrows(s, a, begin, limit, cancelAt);
  }

  /** The goroutine at its `select`: the last call has ended at `now`, and the buffer was last emptied
      at `last`. */
  ghost predicate AtSelect(s: seq<Attempt>, last: nat, now: nat, buffered: bool, begin: nat, limit: nat, cancelAt: nat) {
    && Series(s, begin, limit, cancelAt)
    && s[0].end <= last <= now <= Max(begin, cancelAt)
    && (buffered <==> Ticks(s[0].end, now) > Ticks(s[0].end, last))
    && now == s[|s| - 1].end
    && last == (if |s| == 1 then s[0].end else s[|s| - 1].start)
    && now <= last + limit
    && |s| - 1 <= Ticks(s[0].end, last)
  }

  /** Receiving a tick and making the call leads back to the `select`. */
  lemma TurnContinues(s: seq<Attempt>, last: nat, now: nat, buffered: bool, latency: nat, answer: bool,
                      begin: nat, limit: nat, cancelAt: nat)
    requires AtSelect(s, last, now, buffered, begin, limit, cancelAt) && latency <= limit
    requires Received(s[0].end, now, buffered) <= cancelAt
    ensures
      var a := Call(KeepaliveActivity, Received(s[0].end, now, buffered), latency, answer, cancelAt);
      && now <= a.start <= a.end && (buffered || now < a.start)
      && AtSelect(s + [a], a.start, a.end, Ticks(s[0].end, a.end) > Ticks(s[0].end, a.start), begin, limit, cancelAt)
  {
    var tick := Received(s[0].end, now, buffered);
    ReceivedSoon(s[0].end, last, now, buffered);
    NextCallContinues(s, last, tick, latency, answer, begin, limit, cancelAt);
  }

  /** How close the return of the goroutine is to its last call. */
  lemma ReturnsSoon(s: seq<Attempt>, last: nat, now: nat, buffered: bool, begin: nat, limit: nat, cancelAt: nat)
    requires AtSelect(s, last, now, buffered, begin, limit, cancelAt)
    requires cancelAt <= Received(s[0].end, now, buffered)
    ensures
      var finish := Max(now, cancelAt);
      && finish == Max(begin, cancelAt) && s[0].end <= finish
      && (|s| == 1 ==> finish <= s[0].end + PERIOD)
      && (|s| > 1 ==> finish <= s[|s| - 1].start + Max(PERIOD, limit))
      && |s| <= 1 + Ticks(s[0].end, finish)
  {
    assert AttemptOk(s, 0, begin, limit, cancelAt);
    ReceivedSoon(s[0].end, last, now, buffered);
    TicksMonotone(s[0].end, last, Max(now, cancelAt));
  }

  // ---------------------------------------------------------------- the goroutine of the state machine

  /** `ks`, events of the keepalive and its ticker, lead from `s` to `t`. */
  predicate KeepRun(s: Session, ks: seq<KeepaliveEvent>, t: Session)
    decreases ks
  {
    if ks == [] then t == s
    else KeepaliveEnabled(s, ks[0]) && KeepRun(ApplyKeepalive(s, ks[0]), ks[1..], t)
  }

  lemma KeepFirst(s: Session, k: KeepaliveEvent, ks: seq<KeepaliveEvent>, t: Session)
    requires KeepaliveEnabled(s, k) && KeepRun(ApplyKeepalive(s, k), ks, t)
    ensures KeepRun(s, [k] + ks, t)
  {
    assert ([k] + ks)[1..] == ks;
  }

  lemma {:induction false} KeepThen(s: Session, ks: seq<KeepaliveEvent>, t: Session, ls: seq<KeepaliveEvent>, u: Session)
    requires KeepRun(s, ks, t) && KeepRun(t, ls, u)
    ensures KeepRun(s, ks + ls, u)
    decreases ks
  {
    if ks == [] {
      assert ks + ls == ls;
    } else {
      KeepThen(ApplyKeepalive(s, ks[0]), ks[1..], t, ls, u);
      assert (ks + ls)[1..] == ks[1..] + ls;
    }
  }

  function Kinds(s: seq<Attempt>): (r: seq<Activity>)
    ensures |r| == |s| && forall k :: 0 <= k < |s| ==> r[k] == s[k].kind
  {
    seq(|s|, k requires 0 <= k < |s| => s[k].kind)
  }

  /** The session's keepalive at its `select`, with the attempts that have been made. */
  predicate MachineAtSelect(u: Session, s: seq<Attempt>, buffered: bool) {
    u.keepalive.Selecting? && u.tick == buffered && u.attempts == Kinds(s)
  }

  /** A tick is received, the call is made, a tick may come meanwhile, the call returns. */
  lemma MachineTurn(u: Session, s: seq<Attempt>, a: Attempt, buffered: bool, meanwhile: bool)
      returns (ks: seq<KeepaliveEvent>, v: Session)
    requires MachineAtSelect(u, s, buffered) && |s| > 0 && a.kind == KeepaliveActivity
    ensures KeepRun(u, ks, v) && MachineAtSelect(v, s + [a], meanwhile)
    ensures v == u.(tick := v.tick, attempts := v.attempts)
  {
    assert Kinds(s + [a]) == Kinds(s) + [KeepaliveActivity];
    var full := u.(tick := true);
    var calling := ApplyKeepalive(full, TakeTick);
    var ticked := if meanwhile then calling.(tick := true) else calling;
    v := ApplyKeepalive(ticked, CallReturns);
    assert KeepRun(v, [], v);
    KeepFirst(ticked, CallReturns, [], v);
    ks := [CallReturns] + [];
    if meanwhile {
      KeepFirst(calling, Tick, ks, v);
      ks := [Tick] + ks;
    }
    KeepFirst(full, TakeTick, ks, v);
    ks := [TakeTick] + ks;
    if !buffered {
      KeepFirst(u, Tick, ks, v);
      ks := [Tick] + ks;
    } else {
      assert full == u;
    }
  }

  /** A session whose keepalive has just been started. */
  predicate JustStarted(s: Session) {
    s.keepalive.Calling? && !s.tick && s.attempts == [ConnectionActivity]
  }

  lemma MachineStarts(s: Session, first: Attempt) returns (t: Session)
    requires JustStarted(s) && first.kind == ConnectionActivity
    ensures t == s.(keepalive := Selecting) && KeepRun(s, [CallReturns], t) && MachineAtSelect(t, [first], false)
  {
    t := s.(keepalive := Selecting);
    assert KeepRun(t, [], t);
    KeepFirst(s, CallReturns, [], t);
    assert [CallReturns] + [] == [CallReturns];
  }

  /** The goroutine's calls follow each other closely, up to the moment it returns, and it returns as
      soon as the context is cancelled.  They are the attempts of the session's keepalive in the state
      machine: `ks` leads from a session `s` that has just been started to one, `t`, with just these
      attempts, from which the keepalive ends when it sees the cancellation. */
  method KeepAlive(begin: nat, latency: nat -> nat, answer: nat -> bool, prefersTick: nat -> bool,
                   cancelAt: nat, limit: nat, ghost s: Session)
      returns (attempts: seq<Attempt>, finish: nat, ghost ks: seq<KeepaliveEvent>, ghost t: Session)
    requires forall n :: latency(n) <= limit
    requires JustStarted(s)
    ensures Series(attempts, begin, limit, cancelAt)
    ensures finish == Max(begin, cancelAt)
    ensures |attempts| == 1 ==> finish <= attempts[0].end + 45000
    ensures |attempts| > 1 ==> finish <= attempts[|attempts| - 1].start + Max(45000, limit)
    ensures attempts[0].end <= finish && |attempts| <= 1 + (finish - attempts[0].end) / 45000
    ensures AllAnswered(attempts, latency, answer, cancelAt)
    ensures KeepRun(s, ks, t) && t.attempts == Kinds(attempts)
    ensures KeepRun(t.(cancelled := true), [QuitKeepalive], t.(cancelled := true, keepalive := KeepDone))
  {
    var first := Call(ConnectionActivity, begin, latency(0), answer(0), cancelAt);
    attempts := [first];
    var base, now, buffered := first.end, first.end, false;
    ghost var last := base;
    ks := [CallReturns];
    t := MachineStarts(s, first);
    while true
      invariant AtSelect(attempts, last, now, buffered, begin, limit, cancelAt)
      invariant base == attempts[0].end
      invariant AllAnswered(attempts, latency, answer, cancelAt)
      invariant KeepRun(s, ks, t) && MachineAtSelect(t, attempts, buffered)
      decreases Max(begin, cancelAt) - now, if buffered then 1 else 0
    {
      var tick := Received(base, now, buffered);
      var n := |attempts|;
      if cancelAt < tick || (cancelAt <= tick && !prefersTick(n)) {
        ReturnsSoon(attempts, last, now, buffered, begin, limit, cancelAt);
        finish := Max(now, cancelAt);
        MachineQuits(t);
        return;
      }
      // a tick has been received: call the API
      TurnContinues(attempts, last, now, buffered, latency(n), answer(n), begin, limit, cancelAt);
      var a := Call(KeepaliveActivity, tick, latency(n), answer(n), cancelAt);
      OneMoreAnswered(attempts, KeepaliveActivity, tick, latency, answer, cancelAt);
      ghost var ls, u := MachineTurn(t, attempts, a, buffered, Ticks(base, a.end) > Ticks(base, a.start));
      KeepThen(s, ks, t, ls, u);
      ks, t := ks + ls, u;
      buffered := Ticks(base, a.end) > Ticks(base, a.start);
      attempts := attempts + [a];
      last, now := a.start, a.end;
    }
  }

  lemma MachineQuits(t: Session)
    requires t.keepalive.Selecting?
    ensures KeepRun(t.(cancelled := true), [QuitKeepalive], t.(cancelled := true, keepalive := KeepDone))
  {
    var u, v := t.(cancelled := true), t.(cancelled := true, keepalive := KeepDone);
    assert KeepRun(v, [], v);
    KeepFirst(u, QuitKeepalive, [], v);
    assert [QuitKeepalive] + [] == [QuitKeepalive];
  }
}
