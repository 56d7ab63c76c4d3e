/** Safety of the gateway over every run: any interleaving, any number of sessions. */
module Safety {
  import opened Session
  import opened SessionInvariant
  import opened Connection
  import opened Runs

  /** Session `i` after the first `n` events of a run. */
  predicate HasSession(token: string, es: seq<ConnEvent>, n: nat, i: nat) {
    IsRun(Init(token), es) && n <= |es| && i < |StateAt(Init(token), es, n).sessions|
  }

  function SessionIn(token: string, es: seq<ConnEvent>, n: nat, i: nat): Session
    requires HasSession(token, es, n, i)
  {
    StateAt(Init(token), es, n).sessions[i]
  }

  function ConnAt(token: string, es: seq<ConnEvent>, n: nat): Conn
    requires IsRun(Init(token), es) && n <= |es|
  {
    StateAt(Init(token), es, n)
  }

  lemma SessionHolds(token: string, es: seq<ConnEvent>, n: nat, i: nat)
    requires HasSession(token, es, n, i)
    ensures Inv(ConnAt(token, es, n)) && SessionAtInv(ConnAt(token, es, n), i)
    ensures SessionInv(ScopeOf(ConnAt(token, es, n)), SessionIn(token, es, n, i))
  {
    ReachableInv(token, es, n);
  }

  // ---------------------------------------------------------------- byte streams

  /** Neither direction loses, reorders or invents bytes.  The gateway's EOF reaches the runner only
      after every byte that the client sent has been passed on, and no byte follows it. */
  lemma StreamIntegrity(token: string, es: seq<ConnEvent>, n: nat, i: nat)
    requires HasSession(token, es, n, i)
    ensures var s := SessionIn(token, es, n, i);
      && s.client.Valid() && s.runner.Valid()
      && s.client.sent <= s.runner.stream[..s.runner.read] <= s.runner.stream[..s.runner.arrived]
      && s.runner.sent <= s.client.stream[..s.client.read] <= s.client.stream[..s.client.arrived]
      && (s.runner.eofSent ==> s.runner.sent == s.client.stream[..s.client.arrived])
      && !s.client.eofSent
  {
    SessionHolds(token, es, n, i);
  }

  lemma NothingAfterEof(token: string, es: seq<ConnEvent>, m: nat, n: nat, i: nat)
    requires HasSession(token, es, m, i) && m <= n <= |es|
    requires SessionIn(token, es, m, i).runner.eofSent
    ensures HasSession(token, es, n, i)
    ensures SessionIn(token, es, n, i).runner.sent == SessionIn(token, es, m, i).runner.sent
  {
    RunExtends(token, es, m, n, i);
    SessionHolds(token, es, m, i);
    SessionHolds(token, es, n, i);
  }

  /** Half-close.  As long as the client's connection is up, the gateway leaves the runner's side
      alone while it copies, whatever the client has sent or ended.  When the copy has returned, it
      has delivered everything the runner sent, unless writing to the client failed, and then only
      because the client itself closed its channel. */
  lemma HalfClosePreservesOutput(token: string, es: seq<ConnEvent>, n: nat, i: nat)
    requires HasSession(token, es, n, i) && ConnAt(token, es, n).clientUp
    requires Started(SessionIn(token, es, n, i))
    ensures var s := SessionIn(token, es, n, i);
      && s.runner.Valid()
      && (s.phase.Copying? ==>
            && !s.runner.closeSent && !s.runnerConnClosed && !s.client.closeSent
            && s.client.sent + Buffered(s.phase.copy) == s.runner.stream[..s.runner.read])
      && (Returned(s) ==>
            && (s.client.sent == s.runner.stream[..s.runner.arrived] <==> !s.copyFailed)
            && (s.runner.eof && !s.copyFailed ==> s.client.sent == s.runner.stream)
            && (s.copyFailed ==> s.client.closed))
  {
    SessionHolds(token, es, n, i);
  }

  // ---------------------------------------------------------------- who closes the runner's channel

  predicate Happened(es: seq<ConnEvent>, n: nat, e: ConnEvent)
    requires n <= |es|
  {
    exists j :: 0 <= j < n && es[j] == e
  }

  /** The main goroutine's copy of session `i` has ended. */
  predicate CopyEnded(es: seq<ConnEvent>, n: nat, i: nat)
    requires n <= |es|
  {
    Happened(es, n, At(i, Main(ReadEnd))) || Happened(es, n, At(i, Main(WriteFail)))
  }

  lemma HappenedLater(es: seq<ConnEvent>, n: nat, e: ConnEvent)
    requires n < |es|
    ensures Happened(es, n, e) ==> Happened(es, n + 1, e)
    ensures es[n] == e ==> Happened(es, n + 1, e)
  {
  }

  lemma ReturnStep(c: Conn, e: ConnEvent, i: nat)
    requires Inv(c) && CanStep(c, e) && i < |Step(c, e).sessions|
    requires Returned(Step(c, e).sessions[i]) && Started(Step(c, e).sessions[i])
    requires e != At(i, Main(ReadEnd)) && e != At(i, Main(WriteFail))
    ensures i < |c.sessions| && Returned(c.sessions[i]) && Started(c.sessions[i])
  {
    if i < |c.sessions| {
      assert SessionAtInv(c, i);
      if e.At? && e.i == i {
        ReturnStepOfSession(ScopeOf(c), c.sessions[i], e.e);
      }
    }
  }

  lemma ReturnStepOfSession(sc: Scope, s: Session, e: Event)
    requires SessionInv(sc, s) && Enabled(sc, s, e)
    requires Returned(Apply(sc, s, e)) && Started(Apply(sc, s, e))
    requires e != Main(ReadEnd) && e != Main(WriteFail)
    ensures Returned(s) && Started(s)
  {
    match e
    case Main(m) => assert Apply(sc, s, e) == ApplyMain(sc, s, m);
    case Pump(p) => assert Apply(sc, s, e) == ApplyPump(s, p);
    case Watch(w) => assert Apply(sc, s, e) == ApplyWatcher(s, w);
    case Keep(k) => assert Apply(sc, s, e) == ApplyKeepalive(s, k);
    case Forward(d, f) =>
      assert Apply(sc, s, e) == WithFwd(s, d, ApplyForward(Fwd(s, d), Near(s, d), Far(s, d), f));
    case Peer(side, v) => assert Apply(sc, s, e) == ApplyPeer(s, side, v);
  }

  lemma {:induction false} ReturnHasCause(token: string, es: seq<ConnEvent>, n: nat, i: nat)
    requires HasSession(token, es, n, i)
    requires Returned(SessionIn(token, es, n, i)) && Started(SessionIn(token, es, n, i))
    ensures CopyEnded(es, n, i)
    decreases n
  {
    if n > 0 {
      StateStep(Init(token), es, n - 1);
      HappenedLater(es, n - 1, At(i, Main(ReadEnd)));
      HappenedLater(es, n - 1, At(i, Main(WriteFail)));
      if es[n - 1] != At(i, Main(ReadEnd)) && es[n - 1] != At(i, Main(WriteFail)) {
        ReachableInv(token, es, n - 1);
        ReturnStep(ConnAt(token, es, n - 1), es[n - 1], i);
        ReturnHasCause(token, es, n - 1, i);
      }
    }
  }

  predicate Dead(c: Conn) { !c.clientUp && !c.admission.Refused? }

  lemma DeathStep(c: Conn, e: ConnEvent)
    requires CanStep(c, e)
    ensures Dead(Step(c, e)) ==> Dead(c) || e == ClientDies
    ensures ConnClosed(Step(c, e)) ==> ConnClosed(c) || e == WaiterFires
  {
  }

  lemma {:induction false} DeathHasCause(token: string, es: seq<ConnEvent>, n: nat)
    requires IsRun(Init(token), es) && n <= |es|
    ensures Dead(ConnAt(token, es, n)) ==> Happened(es, n, ClientDies)
    ensures ConnClosed(ConnAt(token, es, n)) ==> Happened(es, n, WaiterFires) && Happened(es, n, ClientDies)
    decreases n
  {
    ReachableInv(token, es, n);
    assert ConnClosed(ConnAt(token, es, n)) ==> Dead(ConnAt(token, es, n));
    if n > 0 {
      DeathHasCause(token, es, n - 1);
      StateStep(Init(token), es, n - 1);
      DeathStep(ConnAt(token, es, n - 1), es[n - 1]);
      HappenedLater(es, n - 1, ClientDies);
      HappenedLater(es, n - 1, WaiterFires);
    }
  }

  /** The gateway closes a session's runner channel, or its connection to the runner, only after the
      client's connection has died or after that session's own copy has ended. */
  lemma RunnerClosedOnlyWithCause(token: string, es: seq<ConnEvent>, n: nat, i: nat)
    requires HasSession(token, es, n, i)
    ensures var s := SessionIn(token, es, n, i);
      && (s.runner.closeSent ==>
            (Happened(es, n, ClientDies) && Happened(es, n, WaiterFires)) || CopyEnded(es, n, i))
      && (Started(s) && s.runnerConnClosed ==> CopyEnded(es, n, i))
  {
    SessionHolds(token, es, n, i);
    DeathHasCause(token, es, n);
    var s := SessionIn(token, es, n, i);
    if Returned(s) && Started(s) {
      ReturnHasCause(token, es, n, i);
    }
  }

  /** An event that session `i` can notice: its own, the start of its goroutine, or the loss of the
      client's connection, be it by the client or by a refusal. */
  predicate Concerns(e: ConnEvent, i: nat) {
    match e
    case At(k, _) => k == i
    case NewChannel(_) => false
    case WaiterFires => false
    case LoopEnds => false
    case _ => true
  }

  /** Sessions of one connection do not disturb each other: over any stretch of a run in which nothing
      concerns session `i`, whatever the others do, it stays exactly as it is. */
  lemma {:induction false} SessionsAreIndependent(token: string, es: seq<ConnEvent>, m: nat, n: nat, i: nat)
    requires HasSession(token, es, m, i) && m <= n <= |es|
    requires forall j :: m <= j < n ==> !Concerns(es[j], i)
    ensures HasSession(token, es, n, i)
    ensures SessionIn(token, es, n, i) == SessionIn(token, es, m, i)
    decreases n
  {
    if m < n {
      SessionsAreIndependent(token, es, m, n - 1, i);
      StateStep(Init(token), es, n - 1);
    }
  }

  // ---------------------------------------------------------------- requests

  /** `WantIndices` lists, in order and without omission, the requests that want a reply. */
  lemma {:induction false} WantIndicesExact(ds: seq<Delivery>, k: nat)
    requires k <= |ds|
    ensures forall a, b :: 0 <= a < b < |WantIndices(ds, k)| ==> WantIndices(ds, k)[a] < WantIndices(ds, k)[b]
    ensures forall m :: 0 <= m < k ==> (m in WantIndices(ds, k) <==> WantsReply(ds[m]))
    decreases k
  {
    if k > 0 {
      WantIndicesExact(ds, k - 1);
      var init := WantIndices(ds, k - 1);
      if WantsReply(ds[k - 1]) {
        assert WantIndices(ds, k) == init + [k - 1];
      } else {
        assert WantIndices(ds, k) == init;
      }
    }
  }

  /** Requests are sent on in the order of their arrival, without gaps.  Every completed request that
      wants a reply has had exactly one, in request order: the far side's answers, in their order, and
      then only false, for the requests that could not be sent or were never answered.  Requests that
      want no reply get none. */
  lemma RequestsForwardedInOrder(token: string, es: seq<ConnEvent>, n: nat, i: nat, dir: Direction)
    requires HasSession(token, es, n, i)
    ensures var f := Fwd(SessionIn(token, es, n, i), dir);
      && |f.sent| <= f.taken <= f.arrived <= |f.incoming|
      && (forall k :: 0 <= k < |f.sent| ==> f.incoming[k] == Req(f.sent[k]))
      && (|f.sent| < f.taken ==> !(if dir.ToRunner? then SessionIn(token, es, n, i).runner else SessionIn(token, es, n, i).client).Open())
      && 0 <= Completed(f) <= f.taken <= Completed(f) + 1
      && (forall a, b :: 0 <= a < b < |f.replyTo| ==> f.replyTo[a] < f.replyTo[b])
      && (forall m :: 0 <= m < Completed(f) ==> (m in f.replyTo <==> WantsReply(f.incoming[m])))
      && (forall m :: m in f.replyTo ==> m < Completed(f))
      && |f.replyOk| == |f.replyTo|
      && (forall j :: 0 <= j < |f.replyOk| ==> f.replyOk[j] == (j < |f.answers| && f.answers[j]))
      && f.delivered <= |f.replyTo|
      && ((if dir.ToRunner? then SessionIn(token, es, n, i).client else SessionIn(token, es, n, i).runner).Open() ==> f.delivered == |f.replyTo|)
  {
    SessionHolds(token, es, n, i);
    var f := Fwd(SessionIn(token, es, n, i), dir);
    WantIndicesExact(f.incoming, Completed(f));
    assert forall j :: 0 <= j < |f.replyOk| ==> Verdicts(f)[j] == f.replyOk[j];
  }

  /** A runner request that the forwarder takes at event `j` reaches the client if and only if the
      client's channel is still open at that moment. */
  lemma RequestReachesClientIff(token: string, es: seq<ConnEvent>, j: nat, n: nat, i: nat)
    requires IsRun(Init(token), es) && j < n <= |es|
    requires es[j] == At(i, Forward(ToClient, TakeRequest))
    ensures HasSession(token, es, j, i) && HasSession(token, es, n, i)
    ensures
      var f := SessionIn(token, es, j, i).toClient;
      var g := SessionIn(token, es, n, i).toClient;
      && f.taken < |f.incoming|
      && (f.incoming[f.taken].Req? ==>
            (|g.sent| > f.taken && g.sent[f.taken] == f.incoming[f.taken].req
             <==> SessionIn(token, es, j, i).client.Open()))
  {
    StateStep(Init(token), es, j);
    SessionHolds(token, es, j, i);
    RunExtends(token, es, j, n, i);
    RunExtends(token, es, j + 1, n, i);
    var s := SessionIn(token, es, j, i);
    assert SessionIn(token, es, j + 1, i).toClient == Take(s.toClient, s.client);
  }

  /** In particular, an exit status that is handled before the session's copy ends is delivered, in its place
      among the requests, as long as the client has not closed its channel. */
  lemma ExitStatusDeliveredBeforeTeardown(token: string, es: seq<ConnEvent>, j: nat, n: nat, i: nat)
    requires IsRun(Init(token), es) && j < n <= |es|
    requires es[j] == At(i, Forward(ToClient, TakeRequest))
    requires HasSession(token, es, j, i)
    requires
      var s := SessionIn(token, es, j, i);
      && s.phase.Copying? && !s.client.closed
      && s.toClient.taken < |s.toClient.incoming|
      && s.toClient.incoming[s.toClient.taken].Req?
      && s.toClient.incoming[s.toClient.taken].req.kind == "exit-status"
    ensures HasSession(token, es, n, i)
    ensures
      var f, g := SessionIn(token, es, j, i).toClient, SessionIn(token, es, n, i).toClient;
      f.taken < |g.sent| && g.sent[f.taken] == f.incoming[f.taken].req
  {
    RequestReachesClientIff(token, es, j, n, i);
    SessionHolds(token, es, j, i);
  }

  // ---------------------------------------------------------------- closing things once, and all of them

  /** `connClosed` is closed at most once, each `sessionDone` at most once, and exactly once by the time
      a session that started its goroutines has ended. */
  lemma NothingClosedTwice(token: string, es: seq<ConnEvent>, n: nat, i: nat)
    requires HasSession(token, es, n, i)
    ensures ConnAt(token, es, n).connCloses <= 1
    ensures var s := SessionIn(token, es, n, i);
      s.doneCloses <= 1 && (s.phase.Ended? ==> s.doneCloses == if Started(s) then 1 else 0)
  {
    SessionHolds(token, es, n, i);
  }

  /** Whatever way a session ends, each channel and connection it acquired has been closed by then;
      and the client's channel is closed by the gateway only when the session is over. */
  lemma EndedSessionHoldsNothing(token: string, es: seq<ConnEvent>, n: nat, i: nat)
    requires HasSession(token, es, n, i)
    ensures var s := SessionIn(token, es, n, i);
      && (s.phase.Ended? ==>
            && (s.client.up <==> s.client.closeSent)
            && (s.dialed.Some? <==> s.runnerConnClosed)
            && (s.runner.up <==> s.runner.closeSent)
            && (s.runner.up <==> s.cancelled))
      && (s.client.closeSent && Started(s) ==> s.phase.Ended?)
  {
    SessionHolds(token, es, n, i);
  }

  function Count(ss: seq<Session>, p: Session -> bool): nat {
    if ss == [] then 0 else (if p(ss[0]) then 1 else 0) + Count(ss[1..], p)
  }

  lemma {:induction false} CountCovered(ss: seq<Session>, p: Session -> bool, q: Session -> bool, r: Session -> bool)
    requires forall s :: s in ss && p(s) ==> q(s) || r(s)
    ensures Count(ss, p) <= Count(ss, q) + Count(ss, r)
    decreases ss
  {
    if ss != [] {
      assert ss[0] in ss;
      assert forall s :: s in ss[1..] ==> s in ss;
      CountCovered(ss[1..], p, q, r);
    }
  }

  lemma {:induction false} CountWithin(ss: seq<Session>, p: Session -> bool, q: Session -> bool)
    requires forall s :: s in ss && p(s) ==> q(s)
    ensures Count(ss, p) <= Count(ss, q)
    decreases ss
  {
    if ss != [] {
      assert ss[0] in ss;
      assert forall s :: s in ss[1..] ==> s in ss;
      CountWithin(ss[1..], p, q);
    }
  }

  predicate WatcherAlive(s: Session) { s.watcher.Watching? || s.watcher.Woken? }

  predicate KeepaliveAlive(s: Session) { s.keepalive.Calling? || s.keepalive.Selecting? }

  /** The session is in use: its goroutines were started and its main goroutine has not returned. */
  predicate InUse(s: Session) { Started(s) && !s.phase.Ended? }

  predicate NotTornDown(s: Session) { Started(s) && s.doneCloses == 0 }

  /** `sessionDone` is closed, and the watcher has an event of its own with which to end. */
  predicate WatcherCanEnd(s: Session) {
    s.doneCloses > 0
    && (WatcherEnabled(Scope(false, Target("", "")), s, QuitWatching)
        || WatcherEnabled(Scope(false, Target("", "")), s, CloseRunner))
  }

  /** The context is cancelled, and the keepalive can end, at the latest when a pending API call returns. */
  predicate KeepaliveCanEnd(s: Session) {
    s.cancelled && (KeepaliveEnabled(s, QuitKeepalive) || KeepaliveEnabled(s, CallReturns))
  }

  lemma AliveInUseOrEnding(sc: Scope, s: Session)
    requires SessionInv(sc, s)
    ensures WatcherAlive(s) ==> InUse(s) || WatcherCanEnd(s)
    ensures KeepaliveAlive(s) ==> InUse(s) || KeepaliveCanEnd(s)
    ensures NotTornDown(s) ==> InUse(s)
  {
  }

  /** Goroutines do not pile up on a long-lived connection: there are never more watchers, nor more
      keepalives, than sessions in use, but for those that are about to end. */
  lemma NoGoroutineBuildUp(token: string, es: seq<ConnEvent>, n: nat)
    requires IsRun(Init(token), es) && n <= |es|
    ensures var ss := ConnAt(token, es, n).sessions;
      && Count(ss, WatcherAlive) <= Count(ss, InUse) + Count(ss, WatcherCanEnd)
      && Count(ss, KeepaliveAlive) <= Count(ss, InUse) + Count(ss, KeepaliveCanEnd)
      && Count(ss, NotTornDown) <= Count(ss, InUse)
  {
    ReachableInv(token, es, n);
    var c := ConnAt(token, es, n);
    var ss := c.sessions;
    forall s | s in ss
      ensures WatcherAlive(s) ==> InUse(s) || WatcherCanEnd(s)
      ensures KeepaliveAlive(s) ==> InUse(s) || KeepaliveCanEnd(s)
      ensures NotTornDown(s) ==> InUse(s)
    {
      var i :| 0 <= i < |ss| && ss[i] == s;
      assert SessionAtInv(c, i);
      AliveInUseOrEnding(ScopeOf(c), s);
    }
    CountCovered(ss, WatcherAlive, InUse, WatcherCanEnd);
    CountCovered(ss, KeepaliveAlive, InUse, KeepaliveCanEnd);
    CountWithin(ss, NotTornDown, InUse);
  }
}
