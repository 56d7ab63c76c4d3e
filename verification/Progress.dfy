/** What a live session gets done by itself: requests are forwarded as they arrive, bytes are passed on as
    they arrive, the end is passed on, the keepalive goes on.  Each theorem gives a run that consists of the
    events of one goroutine and, where it waits for an answer, of that answer; and says what the histories
    are after it. */
module Progress {
  import opened Wrappers
  import opened Session
  import opened SessionInvariant
  import opened Connection

  // ---------------------------------------------------------------- runs of one session

  /** `es` leads from `s` to `t`. */
  predicate SessionRun(sc: Scope, s: Session, es: seq<Event>, t: Session)
    decreases es
  {
    if es == [] then t == s
    else Sane(s) && Enabled(sc, s, es[0]) && SessionRun(sc, Apply(sc, s, es[0]), es[1..], t)
  }

  lemma FirstThen(sc: Scope, s: Session, e: Event, t: Session, es: seq<Event>, u: Session)
    requires Sane(s) && Enabled(sc, s, e) && t == Apply(sc, s, e) && SessionRun(sc, t, es, u)
    ensures SessionRun(sc, s, [e] + es, u)
  {
    assert ([e] + es)[1..] == es;
  }

  lemma {:induction false} SessionThen(sc: Scope, s: Session, es: seq<Event>, t: Session, fs: seq<Event>, u: Session)
    requires SessionRun(sc, s, es, t) && SessionRun(sc, t, fs, u)
    ensures SessionRun(sc, s, es + fs, u)
    decreases es
  {
    if es == [] {
      assert es + fs == fs;
    } else {
      var next := Apply(sc, s, es[0]);
      SessionThen(sc, next, es[1..], t, fs, u);
      FirstThen(sc, s, es[0], next, es[1..] + fs, u);
      assert es + fs == [es[0]] + (es[1..] + fs);
    }
  }

  /** The events of session `i`. */
  function Of(i: nat, es: seq<Event>): seq<ConnEvent> {
    seq(|es|, k requires 0 <= k < |es| => At(i, es[k]))
  }

  /** A run of a session is a run of its connection. */
  lemma {:induction false} OnConnection(c: Conn, i: nat, es: seq<Event>, t: Session)
    requires i < |c.sessions| && SessionRun(ScopeOf(c), c.sessions[i], es, t)
    ensures IsRun(c, Of(i, es)) && After(c, Of(i, es)) == c.(sessions := c.sessions[i := t])
    decreases es
  {
    if es != [] {
      var d := Step(c, At(i, es[0]));
      OnConnection(d, i, es[1..], t);
      assert Of(i, es)[1..] == Of(i, es[1..]);
    }
  }

  // ---------------------------------------------------------------- requests

  /** No nil among the requests up to number `k`. */
  predicate NoNil(ds: seq<Delivery>, k: nat) {
    k < |ds| && forall j :: 0 <= j <= k ==> ds[j].Req?
  }

  /** Every request that has arrived, up to the first nil, has been consumed ... */
  predicate AllTaken(f: Forwarder) {
    forall k: nat :: k < f.arrived && NoNil(f.incoming, k) ==> k < f.taken
  }

  /** ... and sent on. */
  predicate AllForwarded(f: Forwarder) {
    forall k: nat :: k < f.arrived && NoNil(f.incoming, k) ==> k < |f.sent| && f.incoming[k] == Req(f.sent[k])
  }

  /** The events of one forwarder, and the answers of the side that it sends to. */
  predicate Forwarding(es: seq<Event>, dir: Direction) {
    forall e :: e in es ==>
      || (e.Forward? && e.dir == dir)
      || (e.Peer? && e.side == (if dir.ToRunner? then Runner else Client) && e.v.Answer?)
  }

  function Backlog(f: Forwarder): int {
    if f.pc.FwdDone? then 0
    else 3 * (f.arrived - f.taken) + (match f.pc case Awaiting => 3 case Replying(_) => 2 case _ => 1)
  }

  predicate CaughtUp(f: Forwarder, near: Link) {
    f.pc.FwdDone? || (f.pc.Idle? && f.taken == f.arrived && !near.closed)
  }

  /** What a step of a forwarder may change. */
  predicate Moves(f: Forwarder, g: Forwarder) {
    g.incoming == f.incoming && g.arrived == f.arrived && Backlog(g) < Backlog(f)
  }

  lemma OwnMove(f: Forwarder, near: Link, far: Link) returns (e: ForwardEvent)
    requires ForwarderOk(f, near, far) && near.up && !CaughtUp(f, near) && !f.pc.FwdOff?
    requires f.pc.Awaiting? ==> far.closed
    ensures ForwardEnabled(f, near, far, e) && Moves(f, ApplyForward(f, near, far, e))
  {
    e := if f.pc.Awaiting? then SendFails
         else if f.pc.Replying? then SendReply
         else if f.taken < f.arrived then TakeRequest
         else QuitForwarding;
  }

  lemma AnswerMoves(sc: Scope, s: Session, dir: Direction, ok: bool) returns (e: Event)
    requires SessionInv(sc, s) && s.runner.up && (if dir.ToRunner? then s.runner else s.client).Open()
    requires Fwd(s, dir).pc.Awaiting?
    ensures Enabled(sc, s, e) && Forwarding([e], dir)
    ensures Apply(sc, s, e) == WithFwd(s, dir, PeerAnswers(Fwd(s, dir), Answer(ok)))
    ensures Moves(Fwd(s, dir), PeerAnswers(Fwd(s, dir), Answer(ok)))
  {
    var side := if dir.ToRunner? then Runner else Client;
    e := Peer(side, Answer(ok));
    assert Apply(sc, s, e) == ApplyPeer(s, side, Answer(ok));
  }

  /** The far side's channel is open, so that it can answer, or closed, so that sending fails. */
  predicate FarDecided(s: Session, dir: Direction) {
    var far := if dir.ToRunner? then s.runner else s.client;
    far.Open() || far.closed
  }

  lemma ForwarderMoves(sc: Scope, s: Session, dir: Direction, answer: bool) returns (e: Event, t: Session)
    requires SessionInv(sc, s) && s.runner.up && FarDecided(s, dir)
    requires !CaughtUp(Fwd(s, dir), Near(s, dir))
    ensures Sane(s) && Enabled(sc, s, e) && Forwarding([e], dir) && t == Apply(sc, s, e)
    ensures t == WithFwd(s, dir, Fwd(t, dir)) && Moves(Fwd(s, dir), Fwd(t, dir))
  {
    if Fwd(s, dir).pc.Awaiting? && !Far(s, dir).closed {
      e := AnswerMoves(sc, s, dir, answer);
      t := WithFwd(s, dir, PeerAnswers(Fwd(s, dir), Answer(answer)));
    } else {
      var f := OwnMove(Fwd(s, dir), Near(s, dir), Far(s, dir));
      e := Forward(dir, f);
      t := WithFwd(s, dir, ApplyForward(Fwd(s, dir), Near(s, dir), Far(s, dir), f));
    }
  }

  lemma CaughtUpForwarded(f: Forwarder, near: Link, far: Link)
    requires ForwarderOk(f, near, far) && CaughtUp(f, near)
    ensures AllTaken(f) && (far.Open() ==> AllForwarded(f))
  {
  }

  /** A forwarder can at any time work off everything that has arrived, whatever else the session is doing,
      and needs nothing for it but the answers: it sends it all on if the far side's channel is open, and
      fails it all if that is closed.  It ends if the near side has closed its channel. */
  lemma {:induction false} RequestsGoThrough(sc: Scope, s: Session, dir: Direction, answer: bool)
      returns (es: seq<Event>, t: Session)
    requires SessionInv(sc, s) && Started(s) && FarDecided(s, dir)
    ensures SessionRun(sc, s, es, t) && Forwarding(es, dir) && SessionInv(sc, t)
    ensures t == WithFwd(s, dir, Fwd(t, dir))
    ensures var f, g := Fwd(s, dir), Fwd(t, dir);
      && g.incoming == f.incoming && g.arrived == f.arrived && AllTaken(g) && Completed(g) == g.taken
      && ((if dir.ToRunner? then s.runner else s.client).Open() ==> AllForwarded(g))
      && ((if dir.ToRunner? then s.client else s.runner).closed ==> g.pc.FwdDone?)
    decreases Backlog(Fwd(s, dir))
  {
    if CaughtUp(Fwd(s, dir), Near(s, dir)) {
      es, t := [], s;
      CaughtUpForwarded(Fwd(s, dir), Near(s, dir), Far(s, dir));
    } else {
      var e, u := ForwarderMoves(sc, s, dir, answer);
      var same := SessionStep(sc, s, e);
      es, t := RequestsGoThrough(sc, u, dir, answer);
      FirstThen(sc, s, e, u, es, t);
      assert forall x :: x in [e] + es ==> x in [e] || x in es;
      es := [e] + es;
    }
  }

  // ---------------------------------------------------------------- bytes

  predicate ByPump(es: seq<Event>) { forall e :: e in es ==> e.Pump? }

  predicate ByMain(es: seq<Event>) { forall e :: e in es ==> e.Main? }

  /** Only the pump has run. */
  predicate OnlyPumped(s: Session, t: Session) {
    t == s.(pump := t.pump, pumpFailed := t.pumpFailed, client := s.client.(read := t.client.read),
            runner := s.runner.(sent := t.runner.sent, eofSent := t.runner.eofSent))
  }

  /** How far the pump is from having passed on everything, the end included. */
  function PumpDistance(s: Session): int {
    2 * (s.client.arrived - s.client.read)
    + match s.pump case Pumping(c) => 2 + |Buffered(c)| case HalfClosing => 1 case _ => 0
  }

  /** There is nothing for the pump to do. */
  predicate PumpWaits(s: Session) {
    s.pump.PumpDone?
    || (s.pump == Pumping(Reading) && s.client.read == s.client.arrived && !s.client.eof && !s.client.closed)
  }

  lemma PumpWrites(s: Session) returns (e: PumpEvent, t: Session)
    requires PumpStreamOk(s) && s.pump.Pumping? && s.pump.copy.Writing?
    ensures PumpEnabled(s, e) && t == ApplyPump(s, e)
    ensures OnlyPumped(s, t) && t.client.arrived == s.client.arrived && PumpDistance(t) < PumpDistance(s)
  {
    e := if s.runner.Open() then PumpWrite(|s.pump.copy.buf|) else PumpWriteFail;
    t := ApplyPump(s, e);
  }

  lemma PumpReads(s: Session) returns (e: PumpEvent, t: Session)
    requires PumpStreamOk(s) && s.pump == Pumping(Reading) && s.client.up && s.client.read < s.client.arrived
    ensures PumpEnabled(s, e) && t == ApplyPump(s, e)
    ensures OnlyPumped(s, t) && t.client.arrived == s.client.arrived && PumpDistance(t) < PumpDistance(s)
  {
    e := PumpRead(s.client.arrived - s.client.read);
    t := ApplyPump(s, e);
  }

  lemma PumpEnds(s: Session) returns (e: PumpEvent, t: Session)
    requires PumpStreamOk(s) && (s.pump.HalfClosing? || (s.pump == Pumping(Reading) && s.client.Exhausted()))
    ensures PumpEnabled(s, e) && t == ApplyPump(s, e)
    ensures OnlyPumped(s, t) && t.client.arrived == s.client.arrived && PumpDistance(t) < PumpDistance(s)
  {
    e := if s.pump.HalfClosing? then CloseWrite else PumpReadEnd;
    t := ApplyPump(s, e);
  }

  lemma PumpMoves(s: Session) returns (e: PumpEvent, t: Session)
    requires PumpStreamOk(s) && s.client.up && !s.pump.PumpOff? && !PumpWaits(s)
    ensures PumpEnabled(s, e) && t == ApplyPump(s, e)
    ensures OnlyPumped(s, t) && t.client.arrived == s.client.arrived && PumpDistance(t) < PumpDistance(s)
  {
    if s.pump.HalfClosing? {
      e, t := PumpEnds(s);
    } else if s.pump.copy.Writing? {
      e, t := PumpWrites(s);
    } else if s.client.read < s.client.arrived {
      e, t := PumpReads(s);
    } else {
      e, t := PumpEnds(s);
    }
  }

  lemma PumpHasPassedOn(s: Session)
    requires PumpStreamOk(s) && !s.pump.PumpOff? && PumpWaits(s) && s.runner.Open()
    ensures s.runner.sent == s.client.stream[..s.client.arrived]
    ensures s.runner.eofSent <==> s.client.eof || s.client.closed
  {
  }

  /** The pump can at any time go on until it is done or waits for the client.  As long as the runner keeps
      its channel open, it passes on all that has arrived from the client, and the client's end if that has
      arrived; otherwise it is done as soon as there is something to pass on, or the end. */
  lemma {:induction false} ClientBytesGoThrough(sc: Scope, s: Session) returns (es: seq<Event>, t: Session)
    requires SessionInv(sc, s) && Started(s)
    ensures SessionRun(sc, s, es, t) && ByPump(es) && SessionInv(sc, t) && OnlyPumped(s, t) && PumpWaits(t)
    ensures s.runner.Open() ==>
      && t.runner.sent == s.client.stream[..s.client.arrived]
      && (t.runner.eofSent <==> s.client.eof || s.client.closed)
    decreases PumpDistance(s)
  {
    if PumpWaits(s) {
      es, t := [], s;
      if s.runner.Open() { PumpHasPassedOn(s); }
    } else {
      var e, u := PumpMoves(s);
      PumpKeeps(sc, s, e);
      es, t := ClientBytesGoThrough(sc, u);
      FirstThen(sc, s, Pump(e), u, es, t);
      es := [Pump(e)] + es;
    }
  }

  /** Only the main copy has run. */
  predicate OnlyCopied(s: Session, t: Session) {
    t == s.(phase := t.phase, runner := s.runner.(read := t.runner.read), client := s.client.(sent := t.client.sent))
  }

  function CopyDistance(s: Session): int {
    2 * (s.runner.arrived - s.runner.read) + if s.phase.Copying? then |Buffered(s.phase.copy)| else 0
  }

  lemma CopyMoves(sc: Scope, s: Session) returns (e: MainEvent, t: Session)
    requires SessionInv(sc, s) && s.phase.Copying? && s.client.Open()
    requires s.phase != Copying(Reading) || s.runner.read < s.runner.arrived
    ensures Sane(s) && MainEnabled(sc, s, e) && t == ApplyMain(sc, s, e) && t.phase.Copying?
    ensures OnlyCopied(s, t) && t.runner.arrived == s.runner.arrived && CopyDistance(t) < CopyDistance(s)
  {
    e := if s.phase.copy.Writing? then Write(|s.phase.copy.buf|) else Read(s.runner.arrived - s.runner.read);
    t := ApplyMain(sc, s, e);
  }

  /** As long as the client keeps its channel open, the copy can at any time deliver all that has arrived
      from the runner. */
  lemma {:induction false} RunnerBytesGoThrough(sc: Scope, s: Session) returns (es: seq<Event>, t: Session)
    requires SessionInv(sc, s) && s.phase.Copying? && s.client.Open()
    ensures SessionRun(sc, s, es, t) && ByMain(es) && SessionInv(sc, t) && OnlyCopied(s, t)
    ensures t.phase == Copying(Reading) && t.client.sent == s.runner.stream[..s.runner.arrived]
    ensures t.runner.read == s.runner.arrived
    decreases CopyDistance(s)
  {
    if s.phase == Copying(Reading) && s.runner.read == s.runner.arrived {
      es, t := [], s;
    } else {
      var e, u := CopyMoves(sc, s);
      CopyKeeps(sc, s, e);
      es, t := RunnerBytesGoThrough(sc, u);
      FirstThen(sc, s, Main(e), u, es, t);
      es := [Main(e)] + es;
    }
  }

  /** The deferred calls can run one after the other until the session has ended, and send nothing. */
  lemma {:induction false} DeferredCallsRun(sc: Scope, s: Session) returns (es: seq<Event>, t: Session)
    requires SessionInv(sc, s) && Returned(s)
    ensures SessionRun(sc, s, es, t) && ByMain(es) && SessionInv(sc, t) && t.phase.Ended?
    ensures t == s.(phase := t.phase, defers := t.defers, client := s.client.(closeSent := t.client.closeSent),
                    runner := s.runner.(closeSent := t.runner.closeSent), runnerConnClosed := t.runnerConnClosed,
                    doneCloses := t.doneCloses, cancelled := t.cancelled)
    decreases |s.defers|
  {
    if s.phase.Ended? {
      es, t := [], s;
    } else {
      var u := DeferredShape(s);
      DeferredKeeps(sc, s);
      es, t := DeferredCallsRun(sc, u);
      FirstThen(sc, s, Main(RunDeferred), u, es, t);
      es := [Main(RunDeferred)] + es;
    }
  }

  /** When the runner's end has arrived, the main goroutine can by itself deliver the rest of the output and
      then end the session. */
  lemma OutputThenEnd(sc: Scope, s: Session) returns (es: seq<Event>, t: Session)
    requires SessionInv(sc, s) && s.phase.Copying? && s.client.Open() && (s.runner.eof || s.runner.closed)
    ensures SessionRun(sc, s, es, t) && ByMain(es) && SessionInv(sc, t) && t.phase.Ended?
    ensures t.client.sent == s.runner.stream[..s.runner.arrived] && !t.copyFailed
    ensures t.runner.sent == s.runner.sent && t.runner.eofSent == s.runner.eofSent
    ensures t.toRunner == s.toRunner && t.toClient == s.toClient
  {
    var u: Session;
    es, u := RunnerBytesGoThrough(sc, s);
    var v := ApplyMain(sc, u, ReadEnd);
    CopyKeeps(sc, u, ReadEnd);
    var fs: seq<Event>;
    fs, t := DeferredCallsRun(sc, v);
    FirstThen(sc, u, Main(ReadEnd), v, fs, t);
    SessionThen(sc, s, es, u, [Main(ReadEnd)] + fs, t);
    es := es + ([Main(ReadEnd)] + fs);
  }

  // ---------------------------------------------------------------- the keepalive

  /** Until it is cancelled, the keepalive of a session goes on: one more attempt can always follow, and
      takes a tick and the return of the pending call, and nothing else. */
  lemma KeepaliveGoesOn(sc: Scope, s: Session) returns (es: seq<Event>, t: Session)
    requires SessionInv(sc, s) && Started(s) && !s.cancelled
    ensures SessionRun(sc, s, es, t) && forall e :: e in es ==> e.Keep?
    ensures t == s.(keepalive := Calling, tick := false, attempts := s.attempts + [KeepaliveActivity])
  {
    var u := s.(keepalive := Selecting);
    var v := u.(tick := true);
    t := ApplyKeepalive(v, TakeTick);
    es := [Keep(TakeTick)];
    assert SessionRun(sc, t, [], t);
    FirstThen(sc, v, Keep(TakeTick), t, [], t);
    assert [Keep(TakeTick)] + [] == [Keep(TakeTick)];
    if !s.tick {
      FirstThen(sc, u, Keep(Tick), v, es, t);
      es := [Keep(Tick)] + es;
    } else {
      assert u == v;
    }
    if s.keepalive.Calling? {
      FirstThen(sc, s, Keep(CallReturns), u, es, t);
      es := [Keep(CallReturns)] + es;
    } else {
      assert s == u;
    }
  }

  // ---------------------------------------------------------------- everything together

  /** The events of a session's own goroutines, and the peers' answers to requests. */
  predicate OwnOrAnswer(es: seq<Event>) {
    forall e :: e in es ==> e.Peer? ==> e.v.Answer?
  }

  lemma OwnThen(es: seq<Event>, fs: seq<Event>)
    requires OwnOrAnswer(es) && OwnOrAnswer(fs)
    ensures OwnOrAnswer(es + fs)
  {
  }

  lemma RequestsBothWays(sc: Scope, s: Session, answer: bool) returns (es: seq<Event>, t: Session)
    requires SessionInv(sc, s) && Started(s) && s.client.Open() && s.runner.Open()
    ensures SessionRun(sc, s, es, t) && OwnOrAnswer(es) && SessionInv(sc, t)
    ensures t == s.(toRunner := t.toRunner, toClient := t.toClient)
    ensures AllForwarded(t.toRunner) && AllForwarded(t.toClient)
    ensures t.toRunner.incoming == s.toRunner.incoming && t.toRunner.arrived == s.toRunner.arrived
    ensures t.toClient.incoming == s.toClient.incoming && t.toClient.arrived == s.toClient.arrived
  {
    var u, fs;
    es, u := RequestsGoThrough(sc, s, ToRunner, answer);
    fs, t := RequestsGoThrough(sc, u, ToClient, answer);
    SessionThen(sc, s, es, u, fs, t);
    OwnThen(es, fs);
    es := es + fs;
  }

  lemma BytesBothWays(sc: Scope, s: Session) returns (es: seq<Event>, t: Session)
    requires SessionInv(sc, s) && s.phase.Copying? && s.client.Open() && s.runner.Open()
    ensures SessionRun(sc, s, es, t) && OwnOrAnswer(es) && SessionInv(sc, t)
    ensures t.runner.sent == s.client.stream[..s.client.arrived] && t.client.sent == s.runner.stream[..s.runner.arrived]
    ensures t.runner.eofSent <==> s.client.eof || s.client.closed
    ensures t.toRunner == s.toRunner && t.toClient == s.toClient && t.phase.Copying?
    ensures t.client == s.client.(read := t.client.read, sent := t.client.sent)
    ensures t.runner == s.runner.(read := t.runner.read, sent := t.runner.sent, eofSent := t.runner.eofSent)
  {
    var u, fs;
    es, u := ClientBytesGoThrough(sc, s);
    fs, t := RunnerBytesGoThrough(sc, u);
    SessionThen(sc, s, es, u, fs, t);
    OwnThen(es, fs);
    es := es + fs;
  }

  /** From every state of every run: a session whose two peers keep their channels open can, by its own
      goroutines and the answers to requests alone, get everything through that has arrived. */
  lemma EverythingGoesThrough(c: Conn, i: nat, answer: bool) returns (fs: seq<ConnEvent>)
    requires Inv(c) && i < |c.sessions|
    requires c.sessions[i].phase.Copying? && c.sessions[i].client.Open() && c.sessions[i].runner.Open()
    ensures IsRun(c, fs) && |After(c, fs).sessions| == |c.sessions|
    ensures forall e :: e in fs ==> e.At? && e.i == i && (e.e.Peer? ==> e.e.v.Answer?)
    ensures var s, t := c.sessions[i], After(c, fs).sessions[i];
      && t.phase.Copying?
      && t.client.stream == s.client.stream && t.client.arrived == s.client.arrived <= |s.client.stream|
      && t.runner.stream == s.runner.stream && t.runner.arrived == s.runner.arrived <= |s.runner.stream|
      && t.runner.sent == s.client.stream[..s.client.arrived] && t.client.sent == s.runner.stream[..s.runner.arrived]
      && (t.runner.eofSent <==> s.client.eof)
      && t.toRunner.incoming == s.toRunner.incoming && t.toRunner.arrived == s.toRunner.arrived
      && t.toClient.incoming == s.toClient.incoming && t.toClient.arrived == s.toClient.arrived
      && AllForwarded(t.toRunner) && AllForwarded(t.toClient)
  {
    assert SessionAtInv(c, i);
    var sc, s := ScopeOf(c), c.sessions[i];
    var es, u := RequestsBothWays(sc, s, answer);
    var gs, t := BytesBothWays(sc, u);
    SessionThen(sc, s, es, u, gs, t);
    OwnThen(es, gs);
    OnConnection(c, i, es + gs, t);
    fs := Of(i, es + gs);
  }

  // ---------------------------------------------------------------- peers

  predicate ByPeer(es: seq<Event>, side: Side) { forall e :: e in es ==> e.Peer? && e.side == side }

  function WithLink(s: Session, side: Side, l: Link): Session {
    if side.Client? then s.(client := l) else s.(runner := l)
  }

  /** One act of a peer. */
  lemma PeerMoves(sc: Scope, s: Session, side: Side, v: PeerEvent) returns (t: Session)
    requires SessionInv(sc, s)
    requires PeerEnabled(LinkOf(s, side), Fwd(s, From(side)), Fwd(s, Towards(side)), v)
    ensures t == ApplyPeer(s, side, v) && SessionRun(sc, s, [Peer(side, v)], t) && SessionInv(sc, t)
  {
    t := SessionStep(sc, s, Peer(side, v));
    assert SessionRun(sc, t, [], t);
    FirstThen(sc, s, Peer(side, v), t, [], t);
    assert [Peer(side, v)] + [] == [Peer(side, v)];
  }

  lemma RequestArrives(sc: Scope, s: Session, side: Side) returns (t: Session)
    requires SessionInv(sc, s) && LinkOf(s, side).up && !LinkOf(s, side).closed
    requires Fwd(s, From(side)).arrived < |Fwd(s, From(side)).incoming|
    ensures SessionRun(sc, s, [Peer(side, MakeRequest)], t) && SessionInv(sc, t)
    ensures var f := Fwd(s, From(side)); t == WithFwd(s, From(side), f.(arrived := f.arrived + 1))
  {
    t := PeerMoves(sc, s, side, MakeRequest);
  }

  lemma DataArrives(sc: Scope, s: Session, side: Side, n: nat) returns (t: Session)
    requires SessionInv(sc, s) && LinkOf(s, side).up && !LinkOf(s, side).closed && !LinkOf(s, side).eof
    requires 0 < n <= |LinkOf(s, side).stream| - LinkOf(s, side).arrived
    ensures SessionRun(sc, s, [Peer(side, Data(n))], t) && SessionInv(sc, t)
    ensures var l := LinkOf(s, side); t == WithLink(s, side, l.(arrived := l.arrived + n))
  {
    t := PeerMoves(sc, s, side, Data(n));
  }

  lemma EofArrives(sc: Scope, s: Session, side: Side) returns (t: Session)
    requires SessionInv(sc, s) && LinkOf(s, side).up && !LinkOf(s, side).closed && !LinkOf(s, side).eof
    requires LinkOf(s, side).arrived == |LinkOf(s, side).stream|
    ensures SessionRun(sc, s, [Peer(side, Eof)], t) && SessionInv(sc, t)
    ensures t == WithLink(s, side, LinkOf(s, side).(eof := true))
  {
    t := PeerMoves(sc, s, side, Eof);
  }

  /** A peer can make all its requests ... */
  lemma {:induction false} RequestsArrive(sc: Scope, s: Session, side: Side) returns (es: seq<Event>, t: Session)
    requires SessionInv(sc, s) && LinkOf(s, side).up && !LinkOf(s, side).closed
    requires Fwd(s, From(side)).arrived <= |Fwd(s, From(side)).incoming|
    ensures SessionRun(sc, s, es, t) && ByPeer(es, side) && SessionInv(sc, t)
    ensures var f := Fwd(s, From(side)); t == WithFwd(s, From(side), f.(arrived := |f.incoming|))
    decreases |Fwd(s, From(side)).incoming| - Fwd(s, From(side)).arrived
  {
    if Fwd(s, From(side)).arrived == |Fwd(s, From(side)).incoming| {
      es, t := [], s;
    } else {
      var u := RequestArrives(sc, s, side);
      es, t := RequestsArrive(sc, u, side);
      SessionThen(sc, s, [Peer(side, MakeRequest)], u, es, t);
      es := [Peer(side, MakeRequest)] + es;
    }
  }

  /** ... and send all its bytes and its EOF. */
  lemma BytesArrive(sc: Scope, s: Session, side: Side) returns (es: seq<Event>, t: Session)
    requires SessionInv(sc, s) && LinkOf(s, side).up && !LinkOf(s, side).closed && !LinkOf(s, side).eof
    requires LinkOf(s, side).arrived <= |LinkOf(s, side).stream|
    ensures SessionRun(sc, s, es, t) && ByPeer(es, side) && SessionInv(sc, t)
    ensures var l := LinkOf(s, side); t == WithLink(s, side, l.(arrived := |l.stream|, eof := true))
  {
    es := [Peer(side, Eof)];
    var n := |LinkOf(s, side).stream| - LinkOf(s, side).arrived;
    if n == 0 {
      t := EofArrives(sc, s, side);
    } else {
      var u := DataArrives(sc, s, side, n);
      t := EofArrives(sc, u, side);
      SessionThen(sc, s, [Peer(side, Data(n))], u, es, t);
      es := [Peer(side, Data(n))] + es;
    }
  }

  lemma EverythingArrives(sc: Scope, s: Session, side: Side) returns (es: seq<Event>, t: Session)
    requires SessionInv(sc, s) && LinkOf(s, side).up && !LinkOf(s, side).closed && !LinkOf(s, side).eof
    ensures SessionRun(sc, s, es, t) && ByPeer(es, side) && SessionInv(sc, t)
    ensures var l, f := LinkOf(s, side), Fwd(s, From(side));
      t == WithFwd(WithLink(s, side, l.(arrived := |l.stream|, eof := true)), From(side), f.(arrived := |f.incoming|))
  {
    var u, fs;
    es, u := RequestsArrive(sc, s, side);
    fs, t := BytesArrive(sc, u, side);
    SessionThen(sc, s, es, u, fs, t);
    es := es + fs;
  }

  // ---------------------------------------------------------------- new channels

  /** While the loop runs, every channel in the queue can be handed to a goroutine, one after the other. */
  lemma {:induction false} ChannelsAreTaken(c: Conn) returns (es: seq<ConnEvent>)
    requires Inv(c) && c.looping
    ensures IsRun(c, es) && forall e :: e in es ==> e == TakeChannel
    ensures var d := After(c, es);
      && d.taken == |d.sessions| == |c.sessions|
      && forall i :: 0 <= i < |c.sessions| ==>
           d.sessions[i] == if i < c.taken then c.sessions[i] else c.sessions[i].(phase := Accepting)
    decreases |c.sessions| - c.taken
  {
    if c.taken == |c.sessions| {
      es := [];
    } else {
      assert SessionAtInv(c, c.taken);
      var d := Step(c, TakeChannel);
      TakeChannelInv(c);
      es := ChannelsAreTaken(d);
      RunPrepend(c, TakeChannel, es);
      es := [TakeChannel] + es;
    }
  }

  /** If the calls succeed, the main goroutine gets from there to its copy, dialling where the connection was
      admitted to, and has started everything else. */
  lemma SessionIsSetUp(sc: Scope, s: Session) returns (es: seq<Event>, t: Session)
    requires SessionInv(sc, s) && s.phase.Accepting? && !s.client.closed
    ensures SessionRun(sc, s, es, t) && ByMain(es) && SessionInv(sc, t)
    ensures t.phase == Copying(Reading) && t.dialed == Some(sc.target)
    ensures t.pump == Pumping(Reading) && t.watcher.Watching? && t.toRunner.pc.Idle? && t.toClient.pc.Idle?
    ensures t.keepalive.Calling? && t.attempts == [ConnectionActivity] && !t.tick
  {
    var accepted := SessionStep(sc, s, Main(Accept(true)));
    var dialed := SessionStep(sc, accepted, Main(Dial(sc.target, true)));
    t := SessionStep(sc, dialed, Main(OpenChannel(true)));
    assert SessionRun(sc, t, [], t);
    FirstThen(sc, dialed, Main(OpenChannel(true)), t, [], t);
    FirstThen(sc, accepted, Main(Dial(sc.target, true)), dialed, [Main(OpenChannel(true))] + [], t);
    FirstThen(sc, s, Main(Accept(true)), accepted, [Main(Dial(sc.target, true))] + ([Main(OpenChannel(true))] + []), t);
    es := [Main(Accept(true))] + ([Main(Dial(sc.target, true))] + ([Main(OpenChannel(true))] + []));
  }

  // ---------------------------------------------------------------- choices

  /** What is left open: `select` takes any case that is ready, and a read or a write may take any piece. */
  lemma ChoicesAreOpen(sc: Scope, s: Session, n: nat)
    requires SessionInv(sc, s)
    ensures s.keepalive.Selecting? && s.tick && s.cancelled ==> Enabled(sc, s, Keep(TakeTick)) && Enabled(sc, s, Keep(QuitKeepalive))
    ensures s.watcher.Watching? && sc.connClosed && s.doneCloses > 0 ==>
              Enabled(sc, s, Watch(Wake)) && Enabled(sc, s, Watch(QuitWatching))
    ensures s.phase == Copying(Reading) && 0 < n <= s.runner.arrived - s.runner.read ==> Enabled(sc, s, Main(Read(n)))
    ensures s.pump == Pumping(Reading) && 0 < n <= s.client.arrived - s.client.read ==> Enabled(sc, s, Pump(PumpRead(n)))
    ensures s.phase.Copying? && s.phase.copy.Writing? && s.client.Open() && 0 < n <= |s.phase.copy.buf| ==>
              Enabled(sc, s, Main(Write(n)))
    ensures s.pump.Pumping? && s.pump.copy.Writing? && s.runner.Open() && 0 < n <= |s.pump.copy.buf| ==>
              Enabled(sc, s, Pump(PumpWrite(n)))
  {
  }
}
