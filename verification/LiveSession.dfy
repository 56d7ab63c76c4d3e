/** The session as the source writes it: variables shared by goroutines, each of which updates them in
    place, one atomic action at a time.  Every action is proved to be the step of the state machine in
    `Session` that has its name, so that what is proved of the machine holds of the object. */
module LiveSessions {
  import opened Wrappers
  import opened Session
  import opened SessionInvariant
  import opened History

  /** A session after all its deferred calls. */
  function Unwound(s: Session): Session
    decreases |s.defers|
  {
    if s.defers == [] then s else Unwound(PopDeferred(s))
  }

  /** Unwinding keeps the invariant, ends the session, closes all it had, and touches nothing else. */
  lemma {:induction false} UnwoundEnds(sc: Scope, s: Session)
    requires SessionInv(sc, s) && Returned(s)
    ensures var t := Unwound(s);
      && SessionInv(sc, t) && t.phase.Ended?
      && (t.client.up ==> t.client.closeSent) && (t.runner.up ==> t.runner.closeSent)
      && t.client == s.client.(closeSent := t.client.closeSent)
      && t.runner == s.runner.(closeSent := t.runner.closeSent)
      && t.toRunner == s.toRunner && t.toClient == s.toClient && t.pump == s.pump && t.keepalive == s.keepalive
    decreases |s.defers|
  {
    if s.defers != [] {
      var u := DeferredShape(s);
      DeferredKeeps(sc, s);
      UnwoundEnds(sc, u);
    }
  }

  /** What a holder of the session learns from any turn. */
  lemma TurnFacts(sc: Scope, s: Session, e: Event) returns (t: Session)
    requires SessionInv(sc, s) && Enabled(sc, s, e)
    ensures t == Apply(sc, s, e) && SessionInv(sc, t) && Extends(s, t)
    ensures t.client.sent <= t.runner.stream[..t.runner.read] && t.runner.sent <= t.client.stream[..t.client.read]
    ensures s.runner.eofSent ==> t.runner.sent == s.runner.sent
  {
    t := SessionStep(sc, s, e);
    var same := StepExtends(sc, s, e);
  }

  /** The body of a forwarding loop, up to the next point at which it can block. */
  method ForwardOnce(f: Forwarder, near: Link, far: Link, e: ForwardEvent) returns (g: Forwarder)
    requires ForwardEnabled(f, near, far, e) && ForwarderOk(f, near, far)
    ensures g == ApplyForward(f, near, far, e) && ForwarderOk(g, near, far) && ForwarderExtends(f, g)
  {
    ForwardKeeps(f, near, far, e);
    ForwardExtends(f, near, far, e);
    g := f;
    match e {
      case TakeRequest =>
        var d := f.incoming[f.taken];
        if d.Nil? {
          g := g.(pc := FwdDone);
        } else {
          g := g.(taken := g.taken + 1);
          var failed := !far.Open();
          if !failed { g := g.(sent := g.sent + [d.req]); }
          g := g.(pc := if !d.req.wantReply then Idle else if failed then Replying(false) else Awaiting);
        }
      case SendFails =>
        g := g.(pc := Replying(false));
      case SendReply =>
        g := g.(replyTo := g.replyTo + [g.taken - 1], replyOk := g.replyOk + [g.pc.ok]);
        if near.Open() { g := g.(delivered := g.delivered + 1); }
        g := g.(pc := Idle);
      case QuitForwarding =>
        g := g.(pc := FwdDone);
    }
  }

  class LiveSession {
    var phase: Phase
    var defers: seq<Deferred>
    var copyFailed: bool
    var client: Link
    var runner: Link
    var dialed: Option<Target>
    var runnerConnClosed: bool
    var pump: PumpPc
    var pumpFailed: bool
    var watcher: WatcherPc
    var keepalive: KeepalivePc
    var attempts: seq<Activity>
    var tick: bool
    var cancelled: bool
    var doneCloses: nat
    var toRunner: Forwarder
    var toClient: Forwarder

    function View(): Session
      reads this
    {
      Session(phase, defers, copyFailed, client, runner, dialed, runnerConnClosed, pump, pumpFailed, watcher,
              keepalive, attempts, tick, cancelled, doneCloses, toRunner, toClient)
    }

    constructor (p: Peers)
      ensures View() == NewSession(p)
    {
      phase, defers, copyFailed := Queued, [], false;
      client, runner := FreshLink(p.clientStream), FreshLink(p.runnerStream);
      dialed, runnerConnClosed := None, false;
      pump, pumpFailed, watcher, keepalive := PumpOff, false, WatchOff, KeepOff;
      attempts, tick, cancelled, doneCloses := [], false, false, 0;
      toRunner, toClient := FreshForwarder(p.clientRequests), FreshForwarder(p.runnerRequests);
    }

    /** `go handleChannel`. */
    method Begin()
      modifies this`phase
      ensures View() == old(View()).(phase := Accepting)
    {
      phase := Accepting;
    }

    /** The client's transport is gone. */
    method LoseClient()
      modifies this`client
      ensures View() == old(View()).(client := old(client).(closed := true))
    {
      client := client.(closed := true);
    }

    /** The main goroutine on its way to the copy: accept, dial, open, start the others. */
    method SetupTurn(sc: Scope, m: MainEvent)
      requires runner.Valid() && MainEnabled(sc, View(), m) && (m.Accept? || m.Dial? || m.OpenChannel?)
      modifies this`phase, this`defers, this`dialed, this`client, this`runner, this`toRunner, this`toClient,
               this`pump, this`watcher, this`keepalive, this`attempts
      ensures View() == ApplyMain(sc, old(View()), m)
    {
      match m {
        case Accept(ok) =>
          if ok {
            client := client.(up := true);
            defers := [CloseClientChannel];
            phase := Dialing;
          } else {
            phase := Ended;
          }
        case Dial(target, ok) =>
          if ok {
            dialed := Some(target);
            defers := defers + [CloseRunnerConn];
            phase := Opening;
          } else {
            client := Closing(client);
            phase := Returning;
          }
        case OpenChannel(ok) =>
          if ok { Start(); } else { phase := Returning; }
      }
    }

    /** The main goroutine in its copy. */
    method CopyTurn(sc: Scope, m: MainEvent)
      requires runner.Valid() && MainEnabled(sc, View(), m) && phase.Copying?
      modifies this`phase, this`copyFailed, this`client, this`runner
      ensures View() == ApplyMain(sc, old(View()), m)
    {
      match m {
        case Read(n) =>
          phase := Copying(Writing(runner.stream[runner.read..runner.read + n]));
          runner := runner.(read := runner.read + n);
        case ReadEnd =>
          phase := Returning;
        case Write(n) =>
          var buf := phase.copy.buf;
          client := client.(sent := client.sent + buf[..n]);
          phase := Copying(if n == |buf| then Reading else Writing(buf[n..]));
        case WriteFail =>
          copyFailed := true;
          phase := Returning;
      }
    }

    method MainTurn(sc: Scope, m: MainEvent)
      requires runner.Valid() && MainEnabled(sc, View(), m)
      modifies this
      ensures View() == ApplyMain(sc, old(View()), m)
    {
      if m.RunDeferred? { RunOneDeferred(); } else if phase.Copying? { CopyTurn(sc, m); } else { SetupTurn(sc, m); }
    }

    /** The request forwarders start, and the close of the runner's channel is deferred. */
    method StartForwarding()
      modifies this`runner, this`defers, this`toRunner, this`toClient
      ensures View() == old(View()).(runner := old(runner).(up := true), defers := old(defers) + [CloseRunnerChannel],
                                     toRunner := old(toRunner).(pc := Idle), toClient := old(toClient).(pc := Idle))
    {
      runner, defers := runner.(up := true), defers + [CloseRunnerChannel];
      toRunner, toClient := toRunner.(pc := Idle), toClient.(pc := Idle);
    }

    /** The pump starts, then the watcher and the keepalive, each with its deferred end. */
    method StartPumpAndTimers()
      modifies this`pump, this`watcher, this`keepalive, this`attempts, this`defers
      ensures View() == old(View()).(pump := Pumping(Reading), watcher := Watching, keepalive := Calling, attempts := [ConnectionActivity],
                                     defers := old(defers) + [CloseSessionDone] + [CancelKeepalive])
    {
      pump, watcher, defers := Pumping(Reading), Watching, defers + [CloseSessionDone];
      keepalive, attempts, defers := Calling, [ConnectionActivity], defers + [CancelKeepalive];
    }

    /** Everything between the opening of the runner's channel and the copy. */
    method Start()
      modifies this`phase, this`defers, this`runner, this`toRunner, this`toClient, this`pump, this`watcher,
               this`keepalive, this`attempts
      ensures View() == StartGoroutines(old(View()))
    {
      StartForwarding();
      StartPumpAndTimers();
      phase := Copying(Reading);
      assert defers == old(defers) + [CloseRunnerChannel, CloseSessionDone, CancelKeepalive];
    }

    method Perform(d: Deferred)
      modifies this`client, this`runnerConnClosed, this`runner, this`doneCloses, this`cancelled
      ensures View() == RunOne(old(View()), d)
    {
      match d {
        case CloseClientChannel => client := Closing(client);
        case CloseRunnerConn => runnerConnClosed := true;
        case CloseRunnerChannel => runner := Closing(runner);
        case CloseSessionDone => doneCloses := doneCloses + 1;
        case CancelKeepalive => cancelled := true;
      }
    }

    /** The deferred call on top of the stack. */
    method RunOneDeferred()
      requires phase.Returning? && defers != []
      modifies this`phase, this`defers, this`client, this`runnerConnClosed, this`runner, this`doneCloses, this`cancelled
      ensures View() == PopDeferred(old(View()))
    {
      Perform(defers[|defers| - 1]);
      defers := defers[..|defers| - 1];
      phase := if defers == [] then Ended else Returning;
    }

    /** All deferred calls of the main goroutine, last in first out, until it has returned. */
    method Unwind(sc: Scope)
      requires SessionInv(sc, View()) && phase.Returning?
      modifies this`phase, this`defers, this`client, this`runnerConnClosed, this`runner, this`doneCloses, this`cancelled
      ensures View() == Unwound(old(View())) && SessionInv(sc, View()) && phase.Ended?
    {
      UnwoundEnds(sc, View());
      while defers != []
        invariant defers != [] <==> phase.Returning?
        invariant Unwound(View()) == Unwound(old(View()))
        decreases |defers|
      {
        RunOneDeferred();
      }
    }

    /** The client-to-runner goroutine. */
    method PumpTurn(p: PumpEvent)
      requires client.Valid() && PumpEnabled(View(), p)
      modifies this`pump, this`pumpFailed, this`client, this`runner
      ensures View() == ApplyPump(old(View()), p)
    {
      match p {
        case PumpRead(n) =>
          pump := Pumping(Writing(client.stream[client.read..client.read + n]));
          client := client.(read := client.read + n);
        case PumpReadEnd =>
          pump := HalfClosing;
        case PumpWrite(n) =>
          var buf := pump.copy.buf;
          runner := runner.(sent := runner.sent + buf[..n]);
          pump := Pumping(if n == |buf| then Reading else Writing(buf[n..]));
        case PumpWriteFail =>
          pumpFailed := true;
          pump := HalfClosing;
        case CloseWrite =>
          if runner.Open() { runner := runner.(eofSent := true); }
          pump := PumpDone;
      }
    }

    /** The goroutine that watches the client's connection. */
    method WatcherTurn(sc: Scope, w: WatcherEvent)
      requires WatcherEnabled(sc, View(), w)
      modifies this`watcher, this`runner
      ensures View() == ApplyWatcher(old(View()), w)
    {
      match w {
        case Wake => watcher := Woken;
        case CloseRunner => runner := Closing(runner); watcher := WatchDone;
        case QuitWatching => watcher := WatchDone;
      }
    }

    /** The keepalive goroutine and its ticker. */
    method KeepaliveTurn(k: KeepaliveEvent)
      requires KeepaliveEnabled(View(), k)
      modifies this`keepalive, this`tick, this`attempts
      ensures View() == ApplyKeepalive(old(View()), k)
    {
      match k {
        case CallReturns => keepalive := Selecting;
        case TakeTick =>
          tick := false;
          attempts := attempts + [KeepaliveActivity];
          keepalive := Calling;
        case QuitKeepalive => keepalive := KeepDone;
        case Tick => tick := true;
      }
    }

    /** One turn of a request forwarder. */
    method ForwardTurn(dir: Direction, e: ForwardEvent)
      requires ForwardEnabled(Fwd(View(), dir), Near(View(), dir), Far(View(), dir), e)
      requires RequestsOk(View())
      modifies this`toRunner, this`toClient
      ensures View() == WithFwd(old(View()), dir,
                                ApplyForward(old(Fwd(View(), dir)), old(Near(View(), dir)), old(Far(View(), dir)), e))
    {
      if dir.ToRunner? {
        toRunner := ForwardOnce(toRunner, client, runner, e);
      } else {
        toClient := ForwardOnce(toClient, runner, client, e);
      }
    }

    /** What a peer does to the session. */
    method PeerTurn(side: Side, v: PeerEvent)
      requires PeerEnabled(LinkOf(View(), side), Fwd(View(), From(side)), Fwd(View(), Towards(side)), v)
      modifies this`client, this`runner, this`toRunner, this`toClient
      ensures View() == ApplyPeer(old(View()), side, v)
    {
      if side.Client? {
        client, toRunner, toClient := PeerOnLink(client, v), PeerAsks(toRunner, v), PeerAnswers(toClient, v);
      } else {
        runner, toClient, toRunner := PeerOnLink(runner, v), PeerAsks(toClient, v), PeerAnswers(toRunner, v);
      }
    }

    /** One atomic action, of whichever goroutine or peer.  The object keeps the invariant, undoes nothing, has
        sent to each side only what it has read from the other, in order, and sends nothing after the EOF. */
    method Turn(sc: Scope, e: Event)
      requires SessionInv(sc, View()) && Enabled(sc, View(), e)
      modifies this
      ensures View() == Apply(sc, old(View()), e) && SessionInv(sc, View())
      ensures Extends(old(View()), View())
      ensures client.sent <= runner.stream[..runner.read] && runner.sent <= client.stream[..client.read]
      ensures old(runner.eofSent) ==> runner.sent == old(runner.sent)
    {
      ghost var next := TurnFacts(sc, View(), e);
      match e {
        case Main(m) => MainTurn(sc, m);
        case Pump(p) => PumpTurn(p);
        case Watch(w) => WatcherTurn(sc, w);
        case Keep(k) => KeepaliveTurn(k);
        case Forward(d, f) => ForwardTurn(d, f);
        case Peer(side, v) => PeerTurn(side, v);
      }
      assert View() == next;
    }
  }
}
