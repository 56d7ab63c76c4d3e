/** Termination: a measure that every event but the clock's decreases, and the absence of stuck states
    once a client is gone or a session's copy has ended.

    Assumptions about the environment appear in `Inevitable`: a peer answers CLOSE (or its transport
    dies), and calls that set up a session or talk to the API return.  Writes may stay blocked as long
    as the channel is open, so no progress argument relies on one succeeding. */
module Liveness {
  import opened Session
  import opened SessionInvariant
  import opened Connection

  // ---------------------------------------------------------------- the measure

  predicate Bounded(s: Session) {
    && s.client.Valid() && s.runner.Valid()
    && s.toRunner.taken <= s.toRunner.arrived <= |s.toRunner.incoming|
    && s.toClient.taken <= s.toClient.arrived <= |s.toClient.incoming|
  }

  function LinkCost(l: Link): nat
    requires l.Valid()
  {
    3 * (|l.stream| - l.arrived) + 2 * (l.arrived - l.read) + (if l.eof then 0 else 1) + (if l.closed then 0 else 1)
  }

  function CopyCost(c: Copy): nat { |Buffered(c)| }

  function MainCost(s: Session): nat {
    match s.phase
    case Queued => 30
    case Accepting => 29
    case Dialing => 28
    case Opening => 27
    case Copying(c) => 6 + CopyCost(c)
    case Returning => |s.defers|
    case Ended => 0
  }

  function PumpCost(p: PumpPc): nat {
    match p
    case PumpOff => 0
    case Pumping(c) => 2 + CopyCost(c)
    case HalfClosing => 1
    case PumpDone => 0
  }

  function TimerCost(s: Session): nat {
    (match s.watcher case Watching => 2 case Woken => 1 case _ => 0)
    + (match s.keepalive case Calling => 2 case Selecting => 1 case _ => 0)
    + (if s.tick then 2 else 0)
  }

  function ForwarderCost(f: Forwarder): nat
    requires f.taken <= f.arrived <= |f.incoming|
  {
    4 * (|f.incoming| - f.arrived) + 3 * (f.arrived - f.taken)
    + match f.pc case Idle => 1 case Awaiting => 3 case Replying(_) => 2 case _ => 0
  }

  /** Undelivered bytes, pending requests and live goroutines, weighted. */
  function Cost(s: Session): nat
    requires Bounded(s)
  {
    LinkCost(s.client) + LinkCost(s.runner) + MainCost(s) + PumpCost(s.pump) + TimerCost(s)
    + ForwarderCost(s.toRunner) + ForwarderCost(s.toClient)
  }

  lemma OpenCostDrops(sc: Scope, s: Session, ok: bool)
    requires Bounded(s) && s.phase.Opening? && |s.defers| <= 2
    requires s.watcher.WatchOff? && s.keepalive.KeepOff? && s.pump.PumpOff?
    requires s.toRunner.pc.FwdOff? && s.toClient.pc.FwdOff?
    ensures Bounded(ApplyMain(sc, s, OpenChannel(ok))) && Cost(ApplyMain(sc, s, OpenChannel(ok))) < Cost(s)
  {
  }

  lemma DeferredCostDrops(s: Session)
    requires Bounded(s) && StageOk(s) && s.phase.Returning?
    ensures Bounded(PopDeferred(s)) && Cost(PopDeferred(s)) < Cost(s)
  {
  }

  lemma AcceptCostDrops(sc: Scope, s: Session, ok: bool)
    requires Bounded(s) && MainEnabled(sc, s, Accept(ok))
    ensures Bounded(ApplyMain(sc, s, Accept(ok))) && Cost(ApplyMain(sc, s, Accept(ok))) < Cost(s)
  {
  }

  lemma DialCostDrops(sc: Scope, s: Session, t: Target, ok: bool)
    requires Bounded(s) && |s.defers| <= 1 && MainEnabled(sc, s, Dial(t, ok))
    ensures Bounded(ApplyMain(sc, s, Dial(t, ok))) && Cost(ApplyMain(sc, s, Dial(t, ok))) < Cost(s)
  {
  }

  lemma SetupCostDrops(sc: Scope, s: Session, m: MainEvent)
    requires Bounded(s) && StageOk(s) && MainEnabled(sc, s, m) && !s.phase.Copying?
    ensures Bounded(ApplyMain(sc, s, m)) && Cost(ApplyMain(sc, s, m)) < Cost(s)
  {
    if m.RunDeferred? {
      DeferredCostDrops(s);
    } else if m.OpenChannel? {
      OpenCostDrops(sc, s, m.ok);
    } else if m.Accept? {
      AcceptCostDrops(sc, s, m.ok);
    } else {
      DialCostDrops(sc, s, m.target, m.ok);
    }
  }

  lemma CopyCostDrops(sc: Scope, s: Session, m: MainEvent)
    requires Bounded(s) && |s.defers| <= 5 && MainEnabled(sc, s, m) && s.phase.Copying?
    ensures Bounded(ApplyMain(sc, s, m)) && Cost(ApplyMain(sc, s, m)) < Cost(s)
  {
  }

  lemma PumpReadCost(s: Session, n: nat)
    requires Bounded(s) && PumpEnabled(s, PumpRead(n))
    ensures Bounded(ApplyPump(s, PumpRead(n))) && Cost(ApplyPump(s, PumpRead(n))) < Cost(s)
  {
  }

  lemma PumpWriteCost(s: Session, n: nat)
    requires Bounded(s) && PumpEnabled(s, PumpWrite(n))
    ensures Bounded(ApplyPump(s, PumpWrite(n))) && Cost(ApplyPump(s, PumpWrite(n))) < Cost(s)
  {
    var t := ApplyPump(s, PumpWrite(n));
    assert LinkCost(t.runner) == LinkCost(s.runner);
    assert PumpCost(t.pump) < PumpCost(s.pump);
  }

  lemma PumpEndCost(s: Session, p: PumpEvent)
    requires Bounded(s) && PumpEnabled(s, p) && !p.PumpRead? && !p.PumpWrite?
    ensures Bounded(ApplyPump(s, p)) && Cost(ApplyPump(s, p)) < Cost(s)
  {
  }

  lemma PumpCostDrops(s: Session, p: PumpEvent)
    requires Bounded(s) && PumpEnabled(s, p)
    ensures Bounded(ApplyPump(s, p)) && Cost(ApplyPump(s, p)) < Cost(s)
  {
    match p
    case PumpRead(n) => PumpReadCost(s, n);
    case PumpWrite(n) => PumpWriteCost(s, n);
    case _ => PumpEndCost(s, p);
  }

  lemma WatcherCostDrops(sc: Scope, s: Session, w: WatcherEvent)
    requires Bounded(s) && WatcherEnabled(sc, s, w)
    ensures Bounded(ApplyWatcher(s, w)) && Cost(ApplyWatcher(s, w)) < Cost(s)
  {
  }

  lemma KeepaliveCostDrops(s: Session, k: KeepaliveEvent)
    requires Bounded(s) && KeepaliveEnabled(s, k)
    ensures Bounded(ApplyKeepalive(s, k))
    ensures if k.Tick? then Cost(ApplyKeepalive(s, k)) <= Cost(s) + 2 else Cost(ApplyKeepalive(s, k)) < Cost(s)
  {
  }

  lemma ForwarderCostDrops(f: Forwarder, near: Link, far: Link, e: ForwardEvent)
    requires f.taken <= f.arrived <= |f.incoming| && (f.pc.Replying? ==> f.taken > 0)
    requires ForwardEnabled(f, near, far, e)
    ensures var g := ApplyForward(f, near, far, e);
      g.taken <= g.arrived <= |g.incoming| && ForwarderCost(g) < ForwarderCost(f)
  {
  }

  lemma ForwardStepCostDrops(s: Session, d: Direction, g: Forwarder)
    requires Bounded(s) && g.taken <= g.arrived <= |g.incoming|
    requires ForwarderCost(g) < ForwarderCost(Fwd(s, d))
    ensures Bounded(WithFwd(s, d, g)) && Cost(WithFwd(s, d, g)) < Cost(s)
  {
  }

  lemma PeerLinkCost(l: Link, v: PeerEvent, asks: Forwarder, answers: Forwarder)
    requires l.Valid() && PeerEnabled(l, asks, answers, v)
    requires asks.taken <= asks.arrived && answers.taken <= answers.arrived <= |answers.incoming|
    ensures var m, f, g := PeerOnLink(l, v), PeerAsks(asks, v), PeerAnswers(answers, v);
      && m.Valid() && f.taken <= f.arrived && g.taken <= g.arrived <= |g.incoming|
      && (asks.arrived <= |asks.incoming| ==>
            f.arrived <= |f.incoming|
            && LinkCost(m) + ForwarderCost(f) + ForwarderCost(g) < LinkCost(l) + ForwarderCost(asks) + ForwarderCost(answers))
  {
  }

  lemma PeerCostDrops(s: Session, side: Side, v: PeerEvent)
    requires Bounded(s)
    requires PeerEnabled(LinkOf(s, side), Fwd(s, From(side)), Fwd(s, Towards(side)), v)
    ensures Bounded(ApplyPeer(s, side, v)) && Cost(ApplyPeer(s, side, v)) < Cost(s)
  {
    var t := ApplyPeer(s, side, v);
    if side.Client? {
      PeerLinkCost(s.client, v, s.toRunner, s.toClient);
      assert t == s.(client := t.client, toRunner := t.toRunner, toClient := t.toClient);
    } else {
      PeerLinkCost(s.runner, v, s.toClient, s.toRunner);
      assert t == s.(runner := t.runner, toRunner := t.toRunner, toClient := t.toClient);
    }
    assert TimerCost(t) == TimerCost(s) && MainCost(t) == MainCost(s);
  }

  lemma InvBoundsSession(sc: Scope, s: Session)
    requires SessionInv(sc, s)
    ensures Bounded(s) && |s.defers| <= 5
    ensures (s.toRunner.pc.Replying? ==> s.toRunner.taken > 0) && (s.toClient.pc.Replying? ==> s.toClient.taken > 0)
  {
  }

  /** Every event of a session decreases its cost, except that a tick may add 2. */
  lemma CostDrops(sc: Scope, s: Session, e: Event) returns (t: Session)
    requires SessionInv(sc, s) && Enabled(sc, s, e)
    ensures t == Apply(sc, s, e) && Bounded(s) && Bounded(t)
    ensures if e == Keep(Tick) then Cost(t) <= Cost(s) + 2 else Cost(t) < Cost(s)
  {
    InvBoundsSession(sc, s);
    match e
    case Main(m) =>
      t := ApplyMain(sc, s, m);
      if s.phase.Copying? { CopyCostDrops(sc, s, m); } else { SetupCostDrops(sc, s, m); }
    case Pump(p) => t := ApplyPump(s, p); PumpCostDrops(s, p);
    case Watch(w) => t := ApplyWatcher(s, w); WatcherCostDrops(sc, s, w);
    case Keep(k) => t := ApplyKeepalive(s, k); KeepaliveCostDrops(s, k);
    case Forward(d, f) =>
      var g := ApplyForward(Fwd(s, d), Near(s, d), Far(s, d), f);
      t := WithFwd(s, d, g);
      ForwarderCostDrops(Fwd(s, d), Near(s, d), Far(s, d), f);
      ForwardStepCostDrops(s, d, g);
    case Peer(side, v) => t := ApplyPeer(s, side, v); PeerCostDrops(s, side, v);
  }

  predicate AllBounded(ss: seq<Session>) { forall i :: 0 <= i < |ss| ==> Bounded(ss[i]) }

  function Sum(ns: seq<nat>): nat {
    if ns == [] then 0 else Sum(ns[..|ns| - 1]) + ns[|ns| - 1]
  }

  lemma {:induction false} SumUpdate(ns: seq<nat>, i: nat, n: nat)
    requires i < |ns|
    ensures Sum(ns[i := n]) == Sum(ns) - ns[i] + n
    decreases |ns|
  {
    var k := |ns| - 1;
    if i == k {
      assert ns[i := n][..k] == ns[..k];
    } else {
      SumUpdate(ns[..k], i, n);
      assert ns[i := n][..k] == ns[..k][i := n];
    }
  }

  lemma {:induction false} SumMonotone(ns: seq<nat>, ks: seq<nat>)
    requires |ks| == |ns| && forall i :: 0 <= i < |ns| ==> ks[i] <= ns[i]
    ensures Sum(ks) <= Sum(ns)
    decreases |ns|
  {
    if ns != [] { SumMonotone(ns[..|ns| - 1], ks[..|ns| - 1]); }
  }

  function Costs(ss: seq<Session>): (r: seq<nat>)
    requires AllBounded(ss)
    ensures |r| == |ss| && forall i :: 0 <= i < |ss| ==> r[i] == Cost(ss[i])
  {
    seq(|ss|, i requires 0 <= i < |ss| => Cost(ss[i]))
  }

  function TotalCost(ss: seq<Session>): nat
    requires AllBounded(ss)
  {
    Sum(Costs(ss))
  }

  lemma TotalCostUpdate(ss: seq<Session>, i: nat, t: Session)
    requires AllBounded(ss) && i < |ss| && Bounded(t)
    ensures AllBounded(ss[i := t])
    ensures TotalCost(ss[i := t]) == TotalCost(ss) - Cost(ss[i]) + Cost(t)
  {
    SumUpdate(Costs(ss), i, Cost(t));
    assert Costs(ss[i := t]) == Costs(ss)[i := Cost(t)];
  }

  lemma DisconnectCost(s: Session)
    requires Bounded(s)
    ensures Bounded(CloseClientSide(s)) && Cost(CloseClientSide(s)) <= Cost(s)
  {
  }

  lemma TotalCostDisconnect(ss: seq<Session>, ts: seq<Session>)
    requires AllBounded(ss) && |ts| == |ss|
    requires forall i :: 0 <= i < |ss| ==> ts[i] == CloseClientSide(ss[i])
    ensures AllBounded(ts) && TotalCost(ts) <= TotalCost(ss)
  {
    forall i | 0 <= i < |ss|
      ensures Bounded(ts[i]) && Cost(ts[i]) <= Cost(ss[i])
    {
      DisconnectCost(ss[i]);
    }
    SumMonotone(Costs(ss), Costs(ts));
  }

  function AdmissionCost(a: Admission): nat {
    match a
    case Unchecked => 8
    case Validated(_) => 7
    case RunnerKnown(_) => 6
    case Serving(_) => 0
    case Refused => 0
  }

  lemma InvBounded(c: Conn)
    requires Inv(c)
    ensures AllBounded(c.sessions)
  {
    forall i | 0 <= i < |c.sessions|
      ensures Bounded(c.sessions[i])
    {
      assert SessionAtInv(c, i);
    }
  }

  function Measure(c: Conn): nat
    requires Inv(c)
  {
    InvBounded(c);
    TotalCost(c.sessions) + AdmissionCost(c.admission)
    + (if c.clientUp then 1 else 0) + (if c.waiting then 1 else 0) + (if c.looping then 1 else 0)
  }

  predicate IsTick(e: ConnEvent) { e.At? && e.e == Keep(Tick) }

  lemma SessionMeasure(c: Conn, i: nat, e: Event)
    requires Inv(c) && CanStep(c, At(i, e))
    ensures Inv(Step(c, At(i, e)))
    ensures if e == Keep(Tick) then Measure(Step(c, At(i, e))) <= Measure(c) + 2
            else Measure(Step(c, At(i, e))) < Measure(c)
  {
    StepInv(c, At(i, e));
    assert SessionAtInv(c, i);
    InvBounded(c);
    var t := CostDrops(ScopeOf(c), c.sessions[i], e);
    TotalCostUpdate(c.sessions, i, t);
  }

  lemma DisconnectMeasure(c: Conn)
    requires Inv(c)
    ensures AllBounded(c.sessions) && AllBounded(Disconnect(c).sessions)
    ensures TotalCost(Disconnect(c).sessions) <= TotalCost(c.sessions)
  {
    InvBounded(c);
    TotalCostDisconnect(c.sessions, Disconnect(c).sessions);
  }

  lemma QuietMeasure(c: Conn, e: ConnEvent)
    requires Inv(c) && CanStep(c, e) && !e.NewChannel? && !e.At? && !e.TakeChannel?
    requires Inv(Step(c, e))
    ensures Measure(Step(c, e)) < Measure(c)
  {
    DisconnectMeasure(c);
    assert Step(c, e).sessions == c.sessions || Step(c, e).sessions == Disconnect(c).sessions;
  }

  lemma TakeMeasure(c: Conn)
    requires Inv(c) && CanStep(c, TakeChannel) && Inv(Step(c, TakeChannel))
    ensures Measure(Step(c, TakeChannel)) < Measure(c)
  {
    InvBounded(c);
    TotalCostUpdate(c.sessions, c.taken, c.sessions[c.taken].(phase := Accepting));
  }

  /** Every event decreases the measure, except that a clock tick may add 2, and that a client which is
      still connected may open a new channel. */
  lemma MeasureDrops(c: Conn, e: ConnEvent)
    requires Inv(c) && CanStep(c, e) && !e.NewChannel?
    ensures Inv(Step(c, e))
    ensures if IsTick(e) then Measure(Step(c, e)) <= Measure(c) + 2 else Measure(Step(c, e)) < Measure(c)
  {
    StepInv(c, e);
    match e
    case At(i, ev) => SessionMeasure(c, i, ev);
    case TakeChannel => TakeMeasure(c);
    case _ => QuietMeasure(c, e);
  }

  function Ticks(es: seq<ConnEvent>): nat {
    if es == [] then 0 else (if IsTick(es[0]) then 1 else 0) + Ticks(es[1..])
  }

  /** Once the client is gone, a run of the connection is finite up to the clock: at most
      `Measure(c)` events plus three per tick. */
  lemma {:induction false} RunsAreBounded(c: Conn, es: seq<ConnEvent>)
    requires Inv(c) && !c.clientUp && IsRun(c, es)
    ensures |es| <= Measure(c) + 3 * Ticks(es)
    ensures !After(c, es).clientUp
    decreases es
  {
    if es != [] {
      MeasureDrops(c, es[0]);
      RunsAreBounded(Step(c, es[0]), es[1..]);
    }
  }

  // ---------------------------------------------------------------- no stuck states

  /** Events that happen sooner or later unless something else overtakes them. */
  predicate Inevitable(sc: Scope, s: Session, e: Event)
    requires Enabled(sc, s, e)
  {
    match e
    case Main(Write(_)) => false
    case Pump(PumpWrite(_)) => false
    case Keep(Tick) => false
    case Peer(Runner, Close) => s.runner.closeSent || s.runnerConnClosed
    case Peer(Client, Close) => s.client.closeSent
    case Peer(_, _) => false
    case _ => true
  }

  predicate ForwarderOver(f: Forwarder) { f.pc.FwdOff? || f.pc.FwdDone? }

  /** All goroutines of the session have ended. */
  predicate Over(s: Session) {
    && s.phase.Ended?
    && (s.pump.PumpOff? || s.pump.PumpDone?)
    && (s.watcher.WatchOff? || s.watcher.WatchDone?)
    && (s.keepalive.KeepOff? || s.keepalive.KeepDone?)
    && ForwarderOver(s.toRunner) && ForwarderOver(s.toClient)
  }

  /** The session is still being set up, its copy has ended, or `connClosed` has fired. */
  predicate Doomed(sc: Scope, s: Session) {
    !s.phase.Queued? && (s.phase.Copying? ==> sc.connClosed)
  }

  function MainNext(s: Session): MainEvent
    requires s.phase.Copying?
  {
    if s.phase.copy.Writing? then WriteFail
    else if s.runner.read < s.runner.arrived then Read(s.runner.arrived - s.runner.read)
    else ReadEnd
  }

  function PumpNext(s: Session): PumpEvent
    requires s.pump.Pumping? || s.pump.HalfClosing?
  {
    if s.pump.HalfClosing? then CloseWrite
    else if s.pump.copy.Writing? then PumpWriteFail
    else if s.client.read < s.client.arrived then PumpRead(s.client.arrived - s.client.read)
    else PumpReadEnd
  }

  function ForwardNext(f: Forwarder): ForwardEvent
    requires !ForwarderOver(f)
  {
    match f.pc
    case Awaiting => SendFails
    case Replying(_) => SendReply
    case _ => if f.taken < f.arrived then TakeRequest else QuitForwarding
  }

  /** The next event of a session whose channels are both shut down. */
  function ShutNext(s: Session): Event
    requires !Over(s) && (s.phase.Copying? || s.phase.Ended?)
  {
    if s.phase.Copying? then Main(MainNext(s))
    else if s.pump.Pumping? || s.pump.HalfClosing? then Pump(PumpNext(s))
    else if !ForwarderOver(s.toRunner) then Forward(ToRunner, ForwardNext(s.toRunner))
    else if !ForwarderOver(s.toClient) then Forward(ToClient, ForwardNext(s.toClient))
    else if s.keepalive.Calling? then Keep(CallReturns)
    else Keep(QuitKeepalive)
  }

  /** First the watcher, then the peers' answers to CLOSE, then everything else. */
  function RunningNext(sc: Scope, s: Session): Event
    requires !Over(s) && (s.phase.Copying? || s.phase.Ended?)
  {
    if s.watcher.Woken? then Watch(CloseRunner)
    else if s.watcher.Watching? then (if sc.connClosed then Watch(Wake) else Watch(QuitWatching))
    else if !s.runner.closed then Peer(Runner, Close)
    else if !s.client.closed then Peer(Client, Close)
    else ShutNext(s)
  }

  /** An inevitable event of a doomed session that is not over. */
  function Next(sc: Scope, s: Session): Event
    requires Doomed(sc, s) && !Over(s)
  {
    match s.phase
    case Queued => Main(Accept(false))
    case Accepting => Main(Accept(false))
    case Dialing => Main(Dial(sc.target, false))
    case Opening => Main(OpenChannel(false))
    case Returning => Main(RunDeferred)
    case Copying(_) => RunningNext(sc, s)
    case Ended => RunningNext(sc, s)
  }

  lemma ShutNotStuck(sc: Scope, s: Session)
    requires SessionInv(sc, s) && !Over(s) && (s.phase.Copying? || s.phase.Ended?)
    requires s.runner.up && s.runner.closed && s.client.closed && s.watcher.WatchDone?
    ensures Enabled(sc, s, ShutNext(s)) && Inevitable(sc, s, ShutNext(s))
  {
  }

  /** A doomed session is never stuck short of the end of all its goroutines. */
  lemma SessionNotStuck(sc: Scope, s: Session)
    requires SessionInv(sc, s) && Doomed(sc, s) && !Over(s)
    requires sc.connClosed ==> s.client.closed
    ensures Enabled(sc, s, Next(sc, s)) && Inevitable(sc, s, Next(sc, s))
  {
    if s.phase.Copying? || s.phase.Ended? {
      assert s.runner.up;
      if s.watcher.WatchDone? && s.runner.closed && s.client.closed { ShutNotStuck(sc, s); }
    }
  }

  /** Nothing of the connection is left running: refused, or served and completely wound up. */
  predicate Quiet(c: Conn) {
    c.admission.Refused?
    || (c.admission.Serving? && !c.waiting && !c.looping && forall i :: 0 <= i < |c.sessions| ==> Over(c.sessions[i]))
  }

  predicate InevitableHere(c: Conn, e: ConnEvent)
    requires CanStep(c, e)
  {
    match e
    case NewChannel(_) => false
    case ClientDies => false
    case At(i, ev) => Inevitable(ScopeOf(c), c.sessions[i], ev)
    case _ => true
  }

  /** The first session that is not over. */
  function FirstAlive(ss: seq<Session>): (i: nat)
    requires exists k :: 0 <= k < |ss| && !Over(ss[k])
    ensures i < |ss| && !Over(ss[i])
  {
    if !Over(ss[0]) then 0
    else
      assert exists k :: 0 <= k < |ss[1..]| && !Over(ss[1..][k]) by {
        var k :| 0 <= k < |ss| && !Over(ss[k]);
        assert ss[1..][k - 1] == ss[k];
      }
      FirstAlive(ss[1..]) + 1
  }

  /** An inevitable event of a connection whose client is gone. */
  function NextHere(c: Conn): ConnEvent
    requires Inv(c) && !c.clientUp && !Quiet(c)
  {
    match c.admission
    case Unchecked => if c.token == "" then RefuseEmptyToken else Validate(ApiError)
    case Validated(sandboxId) => FindRunner(sandboxId, ApiError)
    case RunnerKnown(t) => if t.sandboxId == "" then SkipStateCheck else CheckState(t.sandboxId, ApiError)
    case Refused => LoopEnds
    case Serving(_) =>
      if c.waiting then WaiterFires
      else if c.looping then (if c.taken < |c.sessions| then TakeChannel else LoopEnds)
      else
        var i := FirstAlive(c.sessions);
        assert SessionAtInv(c, i);
        At(i, Next(ScopeOf(c), c.sessions[i]))
  }

  /** Once the client is gone, the connection is never stuck short of being wound up completely. */
  lemma NeverStuck(c: Conn)
    requires Inv(c) && !c.clientUp && !Quiet(c)
    ensures CanStep(c, NextHere(c)) && InevitableHere(c, NextHere(c))
    ensures !IsTick(NextHere(c)) && !NextHere(c).NewChannel?
  {
    if c.admission.Serving? && !c.waiting {
      if c.looping {
        if c.taken < |c.sessions| { assert SessionAtInv(c, c.taken); }
      } else {
        var i := FirstAlive(c.sessions);
        assert SessionAtInv(c, i);
        SessionNotStuck(ScopeOf(c), c.sessions[i]);
      }
    }
  }

  /** A session whose copy has ended winds up even while its connection lives on: it is never stuck. */
  lemma TeardownNeverStuck(c: Conn, i: nat)
    requires Inv(c) && i < |c.sessions| && Returned(c.sessions[i]) && !Over(c.sessions[i])
    ensures CanStep(c, At(i, Next(ScopeOf(c), c.sessions[i])))
    ensures InevitableHere(c, At(i, Next(ScopeOf(c), c.sessions[i])))
  {
    assert SessionAtInv(c, i);
    SessionNotStuck(ScopeOf(c), c.sessions[i]);
  }

  lemma QuietHoldsNothing(c: Conn)
    requires Inv(c) && Quiet(c) && c.admission.Serving?
    ensures forall i :: 0 <= i < |c.sessions| ==>
              var s := c.sessions[i];
              (s.client.up ==> s.client.closeSent) && (s.dialed.Some? ==> s.runnerConnClosed)
              && (s.runner.up ==> s.runner.closeSent && s.cancelled && s.doneCloses == 1)
  {
    forall i | 0 <= i < |c.sessions|
      ensures
        var s := c.sessions[i];
        (s.client.up ==> s.client.closeSent) && (s.dialed.Some? ==> s.runnerConnClosed)
        && (s.runner.up ==> s.runner.closeSent && s.cancelled && s.doneCloses == 1)
    {
      assert SessionAtInv(c, i);
    }
  }

  lemma WindUpTurn(start: Conn, es: seq<ConnEvent>, e: ConnEvent)
    requires IsRun(start, es)
    requires Inv(After(start, es)) && !After(start, es).clientUp && CanStep(After(start, es), e)
    ensures IsRun(start, es + [e]) && After(start, es + [e]) == Step(After(start, es), e)
    ensures var c, d := After(start, es), Step(After(start, es), e);
      && Inv(d) && !d.clientUp
      && Measure(d) + 1 <= Measure(c) + if IsTick(e) then 3 else 0
  {
    MeasureDrops(After(start, es), e);
    RunExtend(start, es, e);
  }

  /** Winding up a connection whose client is gone.  At every turn a scheduler may pick any event it
      likes, of any goroutine or peer; only the number of clock ticks is limited.  If what it picks
      cannot happen, an inevitable event happens instead.  Whatever the scheduler does, the loop ends,
      every goroutine has then ended, and nothing is left open. */
  method WindUp(start: Conn, scheduler: Conn -> ConnEvent, ticks: nat) returns (c: Conn, ghost es: seq<ConnEvent>)
    requires Inv(start) && !start.clientUp
    ensures IsRun(start, es) && c == After(start, es)
    ensures Inv(c) && Quiet(c)
    ensures |es| <= Measure(start) + 3 * ticks
  {
    c, es := start, [];
    var ticksLeft: nat := ticks;
    while !Quiet(c)
      invariant IsRun(start, es) && c == After(start, es)
      invariant Inv(c) && !c.clientUp
      invariant ticksLeft <= ticks
      invariant |es| + Measure(c) + 3 * ticksLeft <= Measure(start) + 3 * ticks
      decreases Measure(c) + 3 * ticksLeft
    {
      var e := scheduler(c);
      NeverStuck(c);
      if !CanStep(c, e) || (IsTick(e) && ticksLeft == 0) {
        e := NextHere(c);
      }
      WindUpTurn(start, es, e);
      ticksLeft := if IsTick(e) then ticksLeft - 1 else ticksLeft;
      c, es := Step(c, e), es + [e];
    }
  }
}
