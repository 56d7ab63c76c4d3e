/** Concrete runs: what can go wrong although nothing fails, and that the good cases are reachable. */
module Scenarios {
  import opened Wrappers
  import opened Session
  import opened SessionInvariant
  import opened Connection
  import opened Progress
  import opened Stranding

  const SANDBOX := "sb"
  const DOMAIN := "runner.example"
  const TARGET := Target(SANDBOX, DOMAIN)
  const EXIT_STATUS := Request("exit-status", false, [0, 0, 0, 0])

  /** The connection when its only channel has been handed to `handleChannel`. */
  function Taken(p: Peers): Conn {
    Conn("token", Serving(TARGET), true, true, 0, true, 1, [NewSession(p).(phase := Accepting)])
  }

  /** The connection once its only session copies. */
  function Running(p: Peers): Conn {
    var s := NewSession(p);
    var up := s.(client := s.client.(up := true), dialed := Some(TARGET),
                 defers := [CloseClientChannel, CloseRunnerConn]);
    Conn("token", Serving(TARGET), true, true, 0, true, 1, [StartGoroutines(up)])
  }

  /** `es` leads from the beginning to `c`. */
  predicate LeadsTo(es: seq<ConnEvent>, c: Conn) {
    IsRun(Init("token"), es) && After(Init("token"), es) == c
  }

  lemma OneMore(es: seq<ConnEvent>, c: Conn, e: ConnEvent) returns (fs: seq<ConnEvent>)
    requires LeadsTo(es, c) && CanStep(c, e)
    ensures fs == es + [e] && LeadsTo(fs, Step(c, e))
  {
    RunExtend(Init("token"), es, e);
    fs := es + [e];
  }

  lemma AdmittedAndTaken(p: Peers) returns (es: seq<ConnEvent>)
    ensures LeadsTo(es, Taken(p))
  {
    var c := Init("token");
    es := [];
    assert LeadsTo(es, c);
    es := OneMore(es, c, Validate(ApiOk(Validation(true, SANDBOX))));
    c := c.(admission := Validated(SANDBOX));
    es := OneMore(es, c, FindRunner(SANDBOX, ApiOk(Some(DOMAIN))));
    c := c.(admission := RunnerKnown(TARGET));
    es := OneMore(es, c, CheckState(SANDBOX, ApiOk(Some(STARTED))));
    c := Serve(c, TARGET);
    es := OneMore(es, c, NewChannel(p));
    c := c.(sessions := [NewSession(p)]);
    es := OneMore(es, c, TakeChannel);
    assert Step(c, TakeChannel).sessions == Taken(p).sessions;
  }

  /** Every pair of peers can get to a running session. */
  lemma ReachesRunning(p: Peers) returns (es: seq<ConnEvent>)
    ensures LeadsTo(es, Running(p))
  {
    es := AdmittedAndTaken(p);
    var c := Taken(p);
    var s := c.sessions[0];
    es := OneMore(es, c, At(0, Main(Accept(true))));
    s := s.(phase := Dialing, client := s.client.(up := true), defers := [CloseClientChannel]);
    assert Step(c, At(0, Main(Accept(true)))).sessions == [s];
    c := c.(sessions := [s]);
    es := OneMore(es, c, At(0, Main(Dial(TARGET, true))));
    s := s.(phase := Opening, dialed := Some(TARGET), defers := [CloseClientChannel] + [CloseRunnerConn]);
    assert Step(c, At(0, Main(Dial(TARGET, true)))).sessions == [s];
    c := c.(sessions := [s]);
    es := OneMore(es, c, At(0, Main(OpenChannel(true))));
    assert s.defers == [CloseClientChannel, CloseRunnerConn];
    assert Step(c, At(0, Main(OpenChannel(true)))).sessions == Running(p).sessions;
  }

  // ---------------------------------------------------------------- a session in which all goes well

  predicate AllSent(f: Forwarder, ds: seq<Delivery>) {
    |f.sent| == |ds| && forall k :: 0 <= k < |ds| ==> ds[k] == Req(f.sent[k])
  }

  lemma AllForwardedSent(f: Forwarder, near: Link, far: Link, ds: seq<Delivery>)
    requires ForwarderOk(f, near, far) && AllForwarded(f) && f.incoming == ds && f.arrived == |ds|
    requires forall d :: d in ds ==> d.Req?
    ensures AllSent(f, ds)
  {
    forall k: nat | k < |ds|
      ensures k < |f.sent| && ds[k] == Req(f.sent[k])
    {
      assert NoNil(ds, k);
    }
    if ds != [] { assert NoNil(ds, |ds| - 1); }
  }

  lemma SessionGoesWell(sc: Scope, s: Session, p: Peers) returns (es: seq<Event>, t: Session)
    requires SessionInv(sc, s) && s.phase.Copying? && s.client.Open() && s.runner.Open()
    requires !s.client.eof && !s.runner.eof && s.client.stream == p.clientStream && s.runner.stream == p.runnerStream
    requires s.toRunner.incoming == p.clientRequests && s.toClient.incoming == p.runnerRequests
    requires forall d :: d in p.clientRequests + p.runnerRequests ==> d.Req?
    ensures SessionRun(sc, s, es, t) && t.phase.Ended? && !t.copyFailed
    ensures t.runner.sent == p.clientStream && t.runner.eofSent && t.client.sent == p.runnerStream
    ensures AllSent(t.toRunner, p.clientRequests) && AllSent(t.toClient, p.runnerRequests)
  {
    var a, b, c, d;
    var bs, cs, ds, ts;
    es, a := EverythingArrives(sc, s, Client);
    bs, b := EverythingArrives(sc, a, Runner);
    SessionThen(sc, s, es, a, bs, b);
    cs, c := RequestsBothWays(sc, b, true);
    SessionThen(sc, s, es + bs, b, cs, c);
    ds, d := ClientBytesGoThrough(sc, c);
    SessionThen(sc, s, es + bs + cs, c, ds, d);
    ts, t := OutputThenEnd(sc, d);
    SessionThen(sc, s, es + bs + cs + ds, d, ts, t);
    es := es + bs + cs + ds + ts;
    AllForwardedSent(c.toRunner, c.client, c.runner, p.clientRequests);
    AllForwardedSent(c.toClient, c.runner, c.client, p.runnerRequests);
  }

  /** For every pair of peers, whatever they write and ask, there is a run in which all of it is delivered,
      the exit status included, the client's EOF is passed on, and the session ends. */
  lemma EverythingCanBeDelivered(p: Peers) returns (es: seq<ConnEvent>)
    requires forall d :: d in p.clientRequests + p.runnerRequests ==> d.Req?
    ensures IsRun(Init("token"), es)
    ensures var c := After(Init("token"), es);
      && c.clientUp && |c.sessions| == 1
      && var s := c.sessions[0];
         && s.phase.Ended? && !s.copyFailed
         && s.runner.sent == p.clientStream && s.runner.eofSent && s.client.sent == p.runnerStream
         && AllSent(s.toRunner, p.clientRequests) && AllSent(s.toClient, p.runnerRequests)
  {
    es := ReachesRunning(p);
    var c := Running(p);
    InitInv("token");
    RunInv(Init("token"), es);
    assert SessionAtInv(c, 0);
    var fs, t := SessionGoesWell(ScopeOf(c), c.sessions[0], p);
    OnConnection(c, 0, fs, t);
    RunAppend(Init("token"), es, Of(0, fs));
    es := es + Of(0, fs);
  }

  // ---------------------------------------------------------------- a lost exit status

  const EXITING := Peers([], [], [], [Req(EXIT_STATUS)])

  const UNWIND := At(0, Main(RunDeferred))
  const HANDLE := At(0, Forward(ToClient, TakeRequest))

  /** The session after the exit events, when `k` deferred calls have run. */
  function Unwinding(k: nat): Session
    requires k <= 5
  {
    var s := Running(EXITING).sessions[0];
    s.(phase := if k == 5 then Ended else Returning,
       defers := ALL_DEFERS[..5 - k],
       client := s.client.(closeSent := k == 5),
       runner := s.runner.(eof := true, closeSent := k >= 3),
       runnerConnClosed := k >= 4,
       doneCloses := if k >= 2 then 1 else 0,
       cancelled := k >= 1,
       toClient := s.toClient.(arrived := 1))
  }

  function UnwindingConn(k: nat): Conn
    requires k <= 5
  {
    Running(EXITING).(sessions := [Unwinding(k)])
  }

  /** The runner sends its exit status and its EOF; the copy sees the EOF first. */
  lemma RunnerExits(es: seq<ConnEvent>) returns (fs: seq<ConnEvent>)
    requires LeadsTo(es, Running(EXITING))
    ensures LeadsTo(fs, UnwindingConn(0))
  {
    var c := Running(EXITING);
    var s := c.sessions[0];
    fs := OneMore(es, c, At(0, Peer(Runner, MakeRequest)));
    s := s.(toClient := s.toClient.(arrived := 1));
    assert Step(c, At(0, Peer(Runner, MakeRequest))).sessions == [s];
    c := c.(sessions := [s]);
    fs := OneMore(fs, c, At(0, Peer(Runner, Eof)));
    s := s.(runner := s.runner.(eof := true));
    assert Step(c, At(0, Peer(Runner, Eof))).sessions == [s];
    c := c.(sessions := [s]);
    fs := OneMore(fs, c, At(0, Main(ReadEnd)));
    assert s.defers == ALL_DEFERS[..5];
    assert s.(phase := Returning) == Unwinding(0);
    assert Step(c, At(0, Main(ReadEnd))).sessions == [Unwinding(0)];
  }

  lemma UnwindOne(k: nat)
    requires k < 5
    ensures CanStep(UnwindingConn(k), UNWIND) && Step(UnwindingConn(k), UNWIND) == UnwindingConn(k + 1)
  {
    var s := Unwinding(k);
    assert s.defers[..|s.defers| - 1] == ALL_DEFERS[..4 - k];
    assert PopDeferred(s) == Unwinding(k + 1);
    assert Step(UnwindingConn(k), UNWIND).sessions == [Unwinding(k + 1)];
  }

  lemma {:induction false} UnwindAll(es: seq<ConnEvent>, k: nat) returns (fs: seq<ConnEvent>)
    requires k <= 5 && LeadsTo(es, UnwindingConn(0))
    ensures LeadsTo(fs, UnwindingConn(k))
    decreases k
  {
    fs := es;
    if k > 0 {
      fs := UnwindAll(es, k - 1);
      UnwindOne(k - 1);
      fs := OneMore(fs, UnwindingConn(k - 1), UNWIND);
    }
  }

  /** Teardown does not wait for the forwarder.  The runner sends its exit status and then its EOF; the
      client stays connected, keeps its channel open, and no copy fails; yet the session can end with
      the exit status received, handled, and not sent to the client. */
  lemma ExitStatusCanBeLost() returns (es: seq<ConnEvent>)
    ensures IsRun(Init("token"), es)
    ensures var c := After(Init("token"), es);
      && c.clientUp && |c.sessions| == 1
      && var s := c.sessions[0];
         && s.phase.Ended? && !s.copyFailed && !s.client.closed
         && s.runner.eof && s.client.sent == s.runner.stream
         && s.toClient.incoming == [Req(EXIT_STATUS)]
         && s.toClient.taken == 1 && s.toClient.sent == []
  {
    es := ReachesRunning(EXITING);
    es := RunnerExits(es);
    es := UnwindAll(es, 5);
    es := OneMore(es, UnwindingConn(5), HANDLE);
    assert Step(UnwindingConn(5), HANDLE).sessions[0].toClient == Take(Unwinding(5).toClient, Unwinding(5).client);
  }

  // ---------------------------------------------------------------- a session left to the runner

  /** Any client can do it: it closes its channel before the runner has said anything, and stays connected.
      From then on its session is idle, with the keepalive running. */
  lemma ClientLeavesSessionIdle(p: Peers) returns (es: seq<ConnEvent>)
    ensures IsRun(Init("token"), es)
    ensures var c := After(Init("token"), es);
      && c.clientUp && !ConnClosed(c) && |c.sessions| == 1
      && var s := c.sessions[0];
         s.client.closed && CopyIdle(s) && s.keepalive.Calling?
  {
    es := ReachesRunning(p);
    var e := Peer(Client, Close);
    es := OneMore(es, Running(p), At(0, e));
    var s := Running(p).sessions[0];
    assert Step(Running(p), At(0, e)).sessions == [ApplyPeer(s, Client, Close)];
  }
}
