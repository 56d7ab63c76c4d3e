/** A client may close its channel and keep its connection.  Then `connClosed` does not fire, and the
    session's end is up to its runner-to-client copy: exactly when does that need the runner's help? */
module Stranding {
  import opened Session
  import opened SessionInvariant
  import opened Connection
  import opened Liveness

  /** The copy waits for the runner: all that has arrived is passed on, and neither EOF nor CLOSE is there. */
  predicate CopyIdle(s: Session) {
    && s.phase == Copying(Reading)
    && s.runner.read == s.runner.arrived && !s.runner.eof && !s.runner.closed
  }

  predicate RunnerActs(e: ConnEvent, i: nat) {
    e.At? && e.i == i && e.e.Peer? && e.e.side.Runner?
  }

  /** Neither does the runner of session `i` do anything, nor does `connClosed` fire. */
  predicate Unaided(es: seq<ConnEvent>, i: nat) {
    forall j :: 0 <= j < |es| ==> es[j] != WaiterFires && !RunnerActs(es[j], i)
  }

  predicate ReturnsBy(c: Conn, es: seq<ConnEvent>, i: nat) {
    IsRun(c, es) && Unaided(es, i) && i < |After(c, es).sessions| && Returned(After(c, es).sessions[i])
  }

  // ---------------------------------------------------------------- an idle copy

  lemma IdleSessionStep(sc: Scope, s: Session, e: Event)
    requires SessionInv(sc, s) && Enabled(sc, s, e) && CopyIdle(s) && !sc.connClosed
    requires !(e.Peer? && e.side.Runner?)
    ensures CopyIdle(Apply(sc, s, e))
  {
    match e
    case Main(m) => assert false;
    case Pump(p) => assert Apply(sc, s, e) == ApplyPump(s, p);
    case Watch(w) => assert Apply(sc, s, e) == ApplyWatcher(s, w);
    case Keep(k) => assert Apply(sc, s, e) == ApplyKeepalive(s, k);
    case Forward(d, f) =>
      assert Apply(sc, s, e) == WithFwd(s, d, ApplyForward(Fwd(s, d), Near(s, d), Far(s, d), f));
    case Peer(side, v) => assert Apply(sc, s, e) == ApplyPeer(s, side, v);
  }

  lemma IdleStep(c: Conn, e: ConnEvent, i: nat)
    requires Inv(c) && CanStep(c, e) && i < |c.sessions| && CopyIdle(c.sessions[i]) && !ConnClosed(c)
    requires e != WaiterFires && !RunnerActs(e, i)
    ensures i < |Step(c, e).sessions| && CopyIdle(Step(c, e).sessions[i]) && !ConnClosed(Step(c, e))
  {
    if e.At? && e.i == i {
      assert SessionAtInv(c, i);
      IdleSessionStep(ScopeOf(c), c.sessions[i], e.e);
    }
  }

  /** Whatever the client and all goroutines do, an idle copy stays where it is. */
  lemma {:induction false} IdleStays(c: Conn, es: seq<ConnEvent>, i: nat)
    requires Inv(c) && IsRun(c, es) && i < |c.sessions| && CopyIdle(c.sessions[i]) && !ConnClosed(c)
    requires Unaided(es, i)
    ensures i < |After(c, es).sessions| && CopyIdle(After(c, es).sessions[i])
    decreases es
  {
    if es != [] {
      IdleStep(c, es[0], i);
      StepInv(c, es[0]);
      IdleStays(Step(c, es[0]), es[1..], i);
    }
  }

  // ---------------------------------------------------------------- any other copy

  /** Once the client has closed its channel, the main goroutine of any other session has an inevitable
      event, and after it has returned or is about to fail in a write: at most one more event. */
  lemma ClosedChannelEnds(sc: Scope, s: Session)
    requires SessionInv(sc, s) && s.phase.Copying? && s.client.closed && !CopyIdle(s)
    ensures Enabled(sc, s, Main(MainNext(s))) && Inevitable(sc, s, Main(MainNext(s)))
    ensures var t := ApplyMain(sc, s, MainNext(s));
      Returned(t) || (t.phase.Copying? && t.phase.copy.Writing? && t.client == s.client)
  {
  }

  lemma OneEvent(c: Conn, i: nat, e: Event) returns (d: Conn)
    requires Inv(c) && CanStep(c, At(i, e))
    ensures d == Step(c, At(i, e)) && Inv(d) && i < |d.sessions| && d.sessions[i] == Apply(ScopeOf(c), c.sessions[i], e)
  {
    d := Step(c, At(i, e));
    StepInv(c, At(i, e));
  }

  lemma Prepend(c: Conn, e: ConnEvent, es: seq<ConnEvent>, i: nat)
    requires CanStep(c, e) && ReturnsBy(Step(c, e), es, i) && e != WaiterFires && !RunnerActs(e, i)
    ensures ReturnsBy(c, [e] + es, i)
  {
    assert ([e] + es)[1..] == es;
  }

  /** How many events a session is away from returning without the runner. */
  function Distance(s: Session): nat {
    if !s.phase.Copying? then 0 else if !s.client.closed then 3 else if s.phase.copy.Reading? then 2 else 1
  }

  /** The next event on the way: the client closes its channel if it is still open, and then the write
      fails, or the copy sees the end that has already arrived. */
  lemma NextOnTheWay(sc: Scope, s: Session) returns (e: Event, t: Session)
    requires SessionInv(sc, s) && s.phase.Copying? && !CopyIdle(s)
    ensures Enabled(sc, s, e) && !(e.Peer? && e.side.Runner?) && t == Apply(sc, s, e)
    ensures Distance(t) < Distance(s) && (Returned(t) || (t.phase.Copying? && !CopyIdle(t)))
  {
    if !s.client.closed {
      e, t := Peer(Client, Close), ApplyPeer(s, Client, Close);
    } else {
      ClosedChannelEnds(sc, s);
      e, t := Main(MainNext(s)), ApplyMain(sc, s, MainNext(s));
    }
  }

  lemma {:induction false} WayOut(c: Conn, i: nat) returns (es: seq<ConnEvent>)
    requires Inv(c) && i < |c.sessions|
    requires Returned(c.sessions[i]) || (c.sessions[i].phase.Copying? && !CopyIdle(c.sessions[i]))
    ensures ReturnsBy(c, es, i)
    decreases if i < |c.sessions| then Distance(c.sessions[i]) else 0
  {
    if Returned(c.sessions[i]) {
      es := [];
    } else {
      assert SessionAtInv(c, i);
      var e, t := NextOnTheWay(ScopeOf(c), c.sessions[i]);
      var d := OneEvent(c, i, e);
      es := WayOut(d, i);
      Prepend(c, At(i, e), es, i);
      es := [At(i, e)] + es;
    }
  }

  /** As long as the client's connection lives, a session in its copy can return without any act of the
      runner if and only if its copy is not idle.  In particular, a client that closes its channel
      while the runner is silent leaves the session, and its keepalive, to the runner. */
  lemma ReturnsUnaidedIff(c: Conn, i: nat)
    requires Inv(c) && i < |c.sessions| && c.sessions[i].phase.Copying? && !ConnClosed(c)
    ensures (exists es :: ReturnsBy(c, es, i)) <==> !CopyIdle(c.sessions[i])
  {
    if CopyIdle(c.sessions[i]) {
      forall es | IsRun(c, es) && Unaided(es, i)
        ensures !ReturnsBy(c, es, i)
      {
        IdleStays(c, es, i);
      }
    } else {
      var es := WayOut(c, i);
    }
  }
}
