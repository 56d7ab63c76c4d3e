/** The inductive invariant of one session, in four independent parts. */
module SessionInvariant {
  import opened Session

  // ---------------------------------------------------------------- life cycle

  predicate Returned(s: Session) { s.phase.Returning? || s.phase.Ended? }

  /** The goroutines have been started: the runner's channel was opened. */
  predicate Started(s: Session) { s.runner.up }

  const ALL_DEFERS := [CloseClientChannel, CloseRunnerConn, CloseRunnerChannel, CloseSessionDone, CancelKeepalive]

  /** How many deferred calls the main goroutine has registered so far. */
  function Depth(s: Session): nat {
    if s.runner.up then 5 else if s.dialed.Some? then 2 else if s.client.up then 1 else 0
  }

  /** Which resources and goroutines exist in which phase, and what is still on the defer stack. */
  predicate StageOk(s: Session) {
    && (s.runner.up ==> s.dialed.Some?)
    && (s.dialed.Some? ==> s.client.up)
    && (s.phase.Queued? || s.phase.Accepting? ==> !s.client.up)
    && (s.phase.Dialing? ==> s.client.up && s.dialed.None?)
    && (s.phase.Opening? ==> s.dialed.Some? && !s.runner.up)
    && (s.phase.Copying? ==> s.runner.up)
    && |s.defers| <= Depth(s)
    && s.defers == ALL_DEFERS[..|s.defers|]
    && (!Returned(s) ==> |s.defers| == Depth(s))
    && (s.phase.Returning? ==> s.defers != [])
    && (s.phase.Ended? ==> s.defers == [])
    && (s.runner.up <==> !s.pump.PumpOff?)
    && (s.runner.up <==> !s.watcher.WatchOff?)
    && (s.runner.up <==> !s.keepalive.KeepOff?)
    && (s.runner.up <==> !s.toRunner.pc.FwdOff?)
    && (s.runner.up <==> !s.toClient.pc.FwdOff?)
  }

  /** Each deferred call has taken effect exactly when it has left the stack, and nothing else closes
      anything, except that the watcher may close the runner's channel once `connClosed` has fired. */
  predicate ClosesOk(sc: Scope, s: Session) {
    && (s.cancelled <==> Returned(s) && s.runner.up && |s.defers| < 5)
    && s.doneCloses == (if Returned(s) && s.runner.up && |s.defers| < 4 then 1 else 0)
    && (Returned(s) && s.runner.up && |s.defers| < 3 ==> s.runner.closeSent)
    && (s.runnerConnClosed <==> Returned(s) && s.dialed.Some? && |s.defers| < 2)
    && (Returned(s) && s.client.up && |s.defers| < 1 ==> s.client.closeSent)
    && (s.client.closeSent ==> Returned(s) && s.client.up)
    && (Returned(s) && s.client.up && s.dialed.None? ==> s.client.closeSent)    // at once, not only when deferred
    && (s.client.closeSent && s.runner.up ==> s.phase.Ended?)
    && (s.runner.closeSent ==> s.runner.up && (sc.connClosed || (Returned(s) && |s.defers| < 3)))
    && (s.watcher.Woken? ==> sc.connClosed)
    && (s.watcher.WatchDone? ==> s.runner.closeSent || s.doneCloses > 0)
    && (s.dialed.Some? ==> s.dialed.value == sc.target)
  }

  // ---------------------------------------------------------------- byte streams

  predicate MainStreamOk(s: Session) {
    && s.runner.Valid()
    && !s.client.eofSent
    && (!s.runner.up ==> s.client.sent == [] && s.runner.read == 0 && !s.copyFailed)
    && (s.phase.Copying? ==>
          !s.copyFailed && s.client.sent + Buffered(s.phase.copy) == s.runner.stream[..s.runner.read])
    && (s.phase.Copying? && s.phase.copy.Writing? ==> s.phase.copy.buf != [])
    && (Returned(s) && s.runner.up && !s.copyFailed ==>
          s.client.sent == s.runner.stream[..s.runner.read] && s.runner.Exhausted())
    && s.client.sent <= s.runner.stream[..s.runner.read]
    && (s.copyFailed ==> Returned(s) && s.client.closed && |s.client.sent| < s.runner.read)
  }

  predicate PumpStreamOk(s: Session) {
    && s.client.Valid()
    && (s.pump.PumpOff? ==> s.runner.sent == [] && s.client.read == 0 && !s.pumpFailed)
    && (s.pump.Pumping? ==>
          !s.pumpFailed && s.runner.sent + Buffered(s.pump.copy) == s.client.stream[..s.client.read])
    && (s.pump.Pumping? && s.pump.copy.Writing? ==> s.pump.copy.buf != [])
    && (s.pump.HalfClosing? || s.pump.PumpDone? ==>
          if s.pumpFailed then !s.runner.Open()
          else s.runner.sent == s.client.stream[..s.client.read] && s.client.Exhausted())
    && s.runner.sent <= s.client.stream[..s.client.read]
    && (s.runner.eofSent ==> s.pump.PumpDone? && !s.pumpFailed)
    && (s.pump.PumpDone? && !s.runner.eofSent ==> !s.runner.Open())
  }

  // ---------------------------------------------------------------- requests

  /** The positions, among the first `k` requests, of those that want a reply. */
  function WantIndices(ds: seq<Delivery>, k: nat): (r: seq<nat>)
    requires k <= |ds|
    ensures forall j :: 0 <= j < |r| ==> r[j] < k && WantsReply(ds[r[j]])
  {
    if k == 0 then []
    else WantIndices(ds, k - 1) + if WantsReply(ds[k - 1]) then [k - 1] else []
  }

  /** How many requests have been dealt with completely, reply included. */
  function Completed(f: Forwarder): int {
    if f.pc.Awaiting? || f.pc.Replying? then f.taken - 1 else f.taken
  }

  /** The verdicts given so far, including one that is about to be sent. */
  function Verdicts(f: Forwarder): seq<bool> {
    f.replyOk + if f.pc.Replying? then [f.pc.ok] else []
  }

  /** The far side's answers, in order, and false for every request that could not be completed. */
  predicate VerdictsOk(f: Forwarder) {
    && |f.answers| <= |Verdicts(f)|
    && (forall j :: 0 <= j < |f.answers| ==> Verdicts(f)[j] == f.answers[j])
    && (forall j :: |f.answers| <= j < |Verdicts(f)| ==> !Verdicts(f)[j])
  }

  predicate ForwarderOk(f: Forwarder, near: Link, far: Link) {
    && f.taken <= f.arrived <= |f.incoming|
    && (if f.pc.FwdOff? then f.taken == 0 else near.up && far.up)
    && (forall k :: 0 <= k < f.taken ==> f.incoming[k].Req?)
    && |f.sent| <= f.taken
    && (forall k :: 0 <= k < |f.sent| ==> f.incoming[k] == Req(f.sent[k]))
    && (|f.sent| < f.taken ==> !far.Open())
    && (f.pc.Awaiting? ==> |f.sent| == f.taken)
    && (f.pc.Awaiting? || f.pc.Replying? ==> f.taken > 0 && WantsReply(f.incoming[f.taken - 1]))
    && f.replyTo == WantIndices(f.incoming, Completed(f))
    && |f.replyOk| == |f.replyTo|
    && VerdictsOk(f)
    && (|f.answers| < |Verdicts(f)| ==> far.closed || |f.sent| < f.taken)
    && f.delivered <= |f.replyTo|
    && (near.Open() ==> f.delivered == |f.replyTo|)
    && (f.pc.FwdDone? ==>
          (near.closed && f.taken == f.arrived) || (f.taken < f.arrived && f.incoming[f.taken].Nil?))
  }

  // ---------------------------------------------------------------- activity

  /** One `connection` call, then only `keepalive` calls, until the context is cancelled. */
  predicate AttemptsOk(s: Session) {
    && (s.keepalive.KeepDone? ==> s.cancelled)
    && (s.tick ==> !s.keepalive.KeepOff? && (s.keepalive.Calling? ==> |s.attempts| > 1))    // no ticker before
    && (s.attempts == [] <==> s.keepalive.KeepOff?)
    && (forall j :: 0 <= j < |s.attempts| ==>
          s.attempts[j] == if j == 0 then ConnectionActivity else KeepaliveActivity)
  }

  predicate SessionInv(sc: Scope, s: Session) {
    && StageOk(s) && ClosesOk(sc, s)
    && MainStreamOk(s) && PumpStreamOk(s)
    && RequestsOk(s)
    && AttemptsOk(s)
  }

  // ---------------------------------------------------------------- every step keeps it

  /** The part of the invariant that concerns requests, by direction. */
  predicate RequestsOk(s: Session) {
    && ForwarderOk(s.toRunner, s.client, s.runner)
    && ForwarderOk(s.toClient, s.runner, s.client)
  }

  /** All a forwarder needs to know about a change to its two channels. */
  predicate Advances(l: Link, m: Link) {
    && (l.up ==> m.up && (m.Open() ==> l.Open()))
    && (l.closed ==> m.closed)
  }

  lemma ForwarderFrame(f: Forwarder, near: Link, far: Link, near2: Link, far2: Link)
    requires ForwarderOk(f, near, far) && Advances(near, near2) && Advances(far, far2)
    ensures ForwarderOk(f, near2, far2)
  {
  }

  /** A deferred call only closes things: nothing else changes. */
  lemma DeferredShape(s: Session) returns (t: Session)
    requires StageOk(s) && s.phase.Returning?
    ensures t == PopDeferred(s)
    ensures t == s.(phase := t.phase, defers := t.defers,
                    client := s.client.(closeSent := t.client.closeSent),
                    runner := s.runner.(closeSent := t.runner.closeSent),
                    runnerConnClosed := t.runnerConnClosed,
                    doneCloses := t.doneCloses, cancelled := t.cancelled)
    ensures Returned(t)
    ensures (s.client.closeSent ==> t.client.closeSent) && (s.runner.closeSent ==> t.runner.closeSent)
  {
    t := PopDeferred(s);
  }

  lemma DeferredStage(sc: Scope, s: Session)
    requires StageOk(s) && ClosesOk(sc, s) && s.phase.Returning?
    ensures StageOk(PopDeferred(s)) && ClosesOk(sc, PopDeferred(s))
  {
  }

  /** The part of the invariant that does not concern requests. */
  predicate DataOk(sc: Scope, s: Session) {
    StageOk(s) && ClosesOk(sc, s) && MainStreamOk(s) && PumpStreamOk(s) && AttemptsOk(s)
  }

  lemma RequestsFrame(s: Session, t: Session)
    requires RequestsOk(s) && Advances(s.client, t.client) && Advances(s.runner, t.runner)
    requires t.toRunner == s.toRunner && t.toClient == s.toClient
    ensures RequestsOk(t)
  {
    ForwarderFrame(s.toRunner, s.client, s.runner, t.client, t.runner);
    ForwarderFrame(s.toClient, s.runner, s.client, t.runner, t.client);
  }

  lemma DeferredData(sc: Scope, s: Session)
    requires s.phase.Returning? && DataOk(sc, s)
    ensures DataOk(sc, PopDeferred(s))
  {
    DeferredStage(sc, s);
    var t := DeferredShape(s);
    assert MainStreamOk(t) && PumpStreamOk(t) && AttemptsOk(t);
  }

  lemma DeferredKeeps(sc: Scope, s: Session)
    requires s.phase.Returning? && SessionInv(sc, s)
    ensures SessionInv(sc, PopDeferred(s))
  {
    DeferredData(sc, s);
    var t := DeferredShape(s);
    RequestsFrame(s, t);
  }

  lemma SetupData(sc: Scope, s: Session, m: MainEvent)
    requires MainEnabled(sc, s, m) && (m.Accept? || m.Dial?) && DataOk(sc, s)
    ensures DataOk(sc, ApplyMain(sc, s, m))
  {
  }

  lemma SetupKeeps(sc: Scope, s: Session, m: MainEvent)
    requires SessionInv(sc, s) && MainEnabled(sc, s, m) && (m.Accept? || m.Dial?)
    ensures SessionInv(sc, ApplyMain(sc, s, m))
  {
    SetupData(sc, s, m);
    RequestsFrame(s, ApplyMain(sc, s, m));
  }

  lemma OpenData(sc: Scope, s: Session, ok: bool)
    requires s.phase.Opening? && DataOk(sc, s)
    ensures DataOk(sc, ApplyMain(sc, s, OpenChannel(ok)))
  {
  }

  lemma OpenKeeps(sc: Scope, s: Session, ok: bool)
    requires s.phase.Opening? && SessionInv(sc, s)
    ensures SessionInv(sc, ApplyMain(sc, s, OpenChannel(ok)))
  {
    OpenData(sc, s, ok);
    assert RequestsOk(ApplyMain(sc, s, OpenChannel(ok)));
  }

  lemma CopyData(sc: Scope, s: Session, m: MainEvent)
    requires MainEnabled(sc, s, m) && s.phase.Copying? && DataOk(sc, s)
    ensures DataOk(sc, ApplyMain(sc, s, m))
  {
  }

  lemma CopyKeeps(sc: Scope, s: Session, m: MainEvent)
    requires SessionInv(sc, s) && MainEnabled(sc, s, m) && s.phase.Copying?
    ensures SessionInv(sc, ApplyMain(sc, s, m))
  {
    CopyData(sc, s, m);
    RequestsFrame(s, ApplyMain(sc, s, m));
  }

  lemma PumpReadData(sc: Scope, s: Session, n: nat)
    requires PumpEnabled(s, PumpRead(n)) && DataOk(sc, s)
    ensures DataOk(sc, ApplyPump(s, PumpRead(n)))
  {
  }

  lemma PumpWriteData(sc: Scope, s: Session, n: nat)
    requires PumpEnabled(s, PumpWrite(n)) && DataOk(sc, s)
    ensures DataOk(sc, ApplyPump(s, PumpWrite(n)))
  {
  }

  lemma PumpEndData(sc: Scope, s: Session, p: PumpEvent)
    requires PumpEnabled(s, p) && DataOk(sc, s) && !p.PumpRead? && !p.PumpWrite?
    ensures DataOk(sc, ApplyPump(s, p))
  {
  }

  lemma PumpData(sc: Scope, s: Session, p: PumpEvent)
    requires PumpEnabled(s, p) && DataOk(sc, s)
    ensures DataOk(sc, ApplyPump(s, p))
  {
    match p
    case PumpRead(n) => PumpReadData(sc, s, n);
    case PumpWrite(n) => PumpWriteData(sc, s, n);
    case _ => PumpEndData(sc, s, p);
  }

  lemma PumpKeeps(sc: Scope, s: Session, p: PumpEvent)
    requires SessionInv(sc, s) && PumpEnabled(s, p)
    ensures SessionInv(sc, ApplyPump(s, p))
  {
    PumpData(sc, s, p);
    RequestsFrame(s, ApplyPump(s, p));
  }

  lemma WatcherData(sc: Scope, s: Session, w: WatcherEvent)
    requires WatcherEnabled(sc, s, w) && DataOk(sc, s)
    ensures DataOk(sc, ApplyWatcher(s, w))
  {
  }

  lemma WatcherKeeps(sc: Scope, s: Session, w: WatcherEvent)
    requires SessionInv(sc, s) && WatcherEnabled(sc, s, w)
    ensures SessionInv(sc, ApplyWatcher(s, w))
  {
    WatcherData(sc, s, w);
    RequestsFrame(s, ApplyWatcher(s, w));
  }

  lemma TakeTickAttempts(s: Session)
    requires AttemptsOk(s) && KeepaliveEnabled(s, TakeTick)
    ensures AttemptsOk(ApplyKeepalive(s, TakeTick))
  {
  }

  lemma KeepaliveData(sc: Scope, s: Session, k: KeepaliveEvent)
    requires KeepaliveEnabled(s, k) && DataOk(sc, s)
    ensures DataOk(sc, ApplyKeepalive(s, k))
  {
    if k.TakeTick? { TakeTickAttempts(s); }
  }

  lemma KeepaliveKeeps(sc: Scope, s: Session, k: KeepaliveEvent)
    requires SessionInv(sc, s) && KeepaliveEnabled(s, k)
    ensures SessionInv(sc, ApplyKeepalive(s, k))
  {
    KeepaliveData(sc, s, k);
    RequestsFrame(s, ApplyKeepalive(s, k));
  }

  lemma TakeKeeps(f: Forwarder, near: Link, far: Link)
    requires ForwarderOk(f, near, far) && CanTake(f)
    ensures ForwarderOk(Take(f, far), near, far)
  {
    var g := Take(f, far);
    if g.pc.Replying? {
      assert Verdicts(g) == Verdicts(f) + [false];
    } else {
      assert Verdicts(g) == Verdicts(f);
    }
  }

  lemma ReplyKeeps(f: Forwarder, near: Link, far: Link)
    requires ForwarderOk(f, near, far) && f.pc.Replying?
    ensures ForwarderOk(GiveReply(f, near), near, far)
  {
    assert Verdicts(GiveReply(f, near)) == Verdicts(f);
  }

  lemma ForwardKeeps(f: Forwarder, near: Link, far: Link, e: ForwardEvent)
    requires ForwarderOk(f, near, far) && ForwardEnabled(f, near, far, e)
    ensures ForwarderOk(ApplyForward(f, near, far, e), near, far)
  {
    match e
    case TakeRequest => TakeKeeps(f, near, far);
    case SendFails =>
      assert Verdicts(f.(pc := Replying(false))) == Verdicts(f) + [false];
    case SendReply => ReplyKeeps(f, near, far);
    case QuitForwarding =>
      assert Verdicts(f.(pc := FwdDone)) == Verdicts(f);
  }

  /** What a peer does to its channel; the requests aside, the session sees no more of a peer. */
  lemma PeerLinkData(sc: Scope, s: Session, t: Session, side: Side, v: PeerEvent)
    requires DataOk(sc, s)
    requires PeerEnabled(LinkOf(s, side), Fwd(s, From(side)), Fwd(s, Towards(side)), v)
    requires t == (if side.Client? then s.(client := PeerOnLink(s.client, v)) else s.(runner := PeerOnLink(s.runner, v)))
    ensures DataOk(sc, t)
  {
  }

  lemma PeerData(sc: Scope, s: Session, side: Side, v: PeerEvent)
    requires PeerEnabled(LinkOf(s, side), Fwd(s, From(side)), Fwd(s, Towards(side)), v)
    requires DataOk(sc, s) && RequestsOk(s)
    ensures DataOk(sc, ApplyPeer(s, side, v))
  {
    var t := if side.Client? then s.(client := PeerOnLink(s.client, v)) else s.(runner := PeerOnLink(s.runner, v));
    PeerLinkData(sc, s, t, side, v);
    var u := ApplyPeer(s, side, v);
    assert u == t.(toRunner := u.toRunner, toClient := u.toClient);
  }

  lemma AskKept(f: Forwarder, near: Link, far: Link)
    requires ForwarderOk(f, near, far) && !near.closed && f.arrived < |f.incoming|
    ensures ForwarderOk(PeerAsks(f, MakeRequest), near, far)
  {
  }

  lemma AnswerKept(f: Forwarder, near: Link, far: Link, ok: bool)
    requires ForwarderOk(f, near, far) && !far.closed && f.pc.Awaiting?
    ensures ForwarderOk(PeerAnswers(f, Answer(ok)), near, far)
  {
  }

  lemma PeerRequestsKept(asks: Forwarder, answers: Forwarder, l: Link, other: Link, v: PeerEvent)
    requires ForwarderOk(asks, l, other) && ForwarderOk(answers, other, l) && PeerEnabled(l, asks, answers, v)
    ensures ForwarderOk(PeerAsks(asks, v), PeerOnLink(l, v), other)
    ensures ForwarderOk(PeerAnswers(answers, v), other, PeerOnLink(l, v))
  {
    if v.MakeRequest? {
      AskKept(asks, l, other);
    } else if v.Answer? {
      AnswerKept(answers, other, l, v.ok);
    } else {
      ForwarderFrame(asks, l, other, PeerOnLink(l, v), other);
      ForwarderFrame(answers, other, l, other, PeerOnLink(l, v));
    }
  }

  lemma PeerRequests(s: Session, side: Side, v: PeerEvent)
    requires PeerEnabled(LinkOf(s, side), Fwd(s, From(side)), Fwd(s, Towards(side)), v)
    requires RequestsOk(s)
    ensures RequestsOk(ApplyPeer(s, side, v))
  {
    if side.Client? {
      PeerRequestsKept(s.toRunner, s.toClient, s.client, s.runner, v);
    } else {
      PeerRequestsKept(s.toClient, s.toRunner, s.runner, s.client, v);
    }
  }

  lemma ForwardFrame(sc: Scope, s: Session, dir: Direction, f: Forwarder)
    requires DataOk(sc, s) && !f.pc.FwdOff? && !Fwd(s, dir).pc.FwdOff?
    ensures DataOk(sc, WithFwd(s, dir, f))
  {
  }

  lemma ForwardStepKeeps(sc: Scope, s: Session, d: Direction, e: ForwardEvent)
    requires SessionInv(sc, s) && ForwardEnabled(Fwd(s, d), Near(s, d), Far(s, d), e)
    ensures SessionInv(sc, WithFwd(s, d, ApplyForward(Fwd(s, d), Near(s, d), Far(s, d), e)))
  {
    var g := ApplyForward(Fwd(s, d), Near(s, d), Far(s, d), e);
    ForwardKeeps(Fwd(s, d), Near(s, d), Far(s, d), e);
    ForwardFrame(sc, s, d, g);
    assert RequestsOk(WithFwd(s, d, g));
  }

  lemma PeerKeeps(sc: Scope, s: Session, side: Side, v: PeerEvent)
    requires SessionInv(sc, s)
    requires PeerEnabled(LinkOf(s, side), Fwd(s, From(side)), Fwd(s, Towards(side)), v)
    ensures SessionInv(sc, ApplyPeer(s, side, v))
  {
    PeerData(sc, s, side, v);
    PeerRequests(s, side, v);
  }

  lemma MainKeeps(sc: Scope, s: Session, m: MainEvent)
    requires SessionInv(sc, s) && MainEnabled(sc, s, m)
    ensures SessionInv(sc, ApplyMain(sc, s, m))
  {
    if s.phase.Copying? {
      CopyKeeps(sc, s, m);
    } else if m.RunDeferred? {
      DeferredKeeps(sc, s);
    } else if m.OpenChannel? {
      OpenKeeps(sc, s, m.ok);
    } else {
      SetupKeeps(sc, s, m);
    }
  }

  /** Every enabled event keeps the invariant, whichever goroutine or peer it belongs to. */
  lemma SessionStep(sc: Scope, s: Session, e: Event) returns (t: Session)
    requires SessionInv(sc, s) && Enabled(sc, s, e)
    ensures t == Apply(sc, s, e) && SessionInv(sc, t)
  {
    match e
    case Main(m) => t := ApplyMain(sc, s, m); MainKeeps(sc, s, m);
    case Pump(p) => t := ApplyPump(s, p); PumpKeeps(sc, s, p);
    case Watch(w) => t := ApplyWatcher(s, w); WatcherKeeps(sc, s, w);
    case Keep(k) => t := ApplyKeepalive(s, k); KeepaliveKeeps(sc, s, k);
    case Forward(d, f) =>
      t := WithFwd(s, d, ApplyForward(Fwd(s, d), Near(s, d), Far(s, d), f));
      ForwardStepKeeps(sc, s, d, f);
    case Peer(side, v) => t := ApplyPeer(s, side, v); PeerKeeps(sc, s, side, v);
  }
}
