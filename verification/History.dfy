/** What a session has done is never undone: histories only grow and closings are final. */
module History {
  import opened Session
  import opened SessionInvariant

  predicate LinkExtends(l: Link, m: Link) {
    && m.stream == l.stream
    && (l.up ==> m.up)
    && l.arrived <= m.arrived
    && l.read <= m.read
    && (l.eof ==> m.eof)
    && (l.closed ==> m.closed)
    && (l.up && (l.eof || l.closed) ==> m.arrived == l.arrived)
    && l.sent <= m.sent
    && (l.eofSent ==> m.eofSent)
    && (l.closeSent ==> m.closeSent)
  }

  predicate ForwarderExtends(f: Forwarder, g: Forwarder) {
    && g.incoming == f.incoming
    && f.arrived <= g.arrived
    && f.taken <= g.taken
    && f.sent <= g.sent
    && (|f.sent| < f.taken ==> g.sent == f.sent)
    && f.answers <= g.answers
    && f.replyTo <= g.replyTo
    && f.replyOk <= g.replyOk
  }

  predicate LifeExtends(s: Session, t: Session) {
    && (Returned(s) ==> Returned(t))
    && (s.phase.Ended? ==> t.phase.Ended?)
    && (s.copyFailed ==> t.copyFailed)
    && (Returned(s) ==> t.copyFailed == s.copyFailed)
    && (s.dialed.Some? ==> t.dialed == s.dialed)
    && (s.runnerConnClosed ==> t.runnerConnClosed)
    && (s.cancelled ==> t.cancelled)
    && s.doneCloses <= t.doneCloses
    && s.attempts <= t.attempts
    && (!s.phase.Queued? ==> !t.phase.Queued?)
  }

  predicate Extends(s: Session, t: Session) {
    && LifeExtends(s, t)
    && LinkExtends(s.client, t.client)
    && LinkExtends(s.runner, t.runner)
    && ForwarderExtends(s.toRunner, t.toRunner)
    && ForwarderExtends(s.toClient, t.toClient)
  }

  lemma ExtendsTransitive(s: Session, t: Session, u: Session)
    requires Extends(s, t) && Extends(t, u)
    ensures Extends(s, u)
  {
  }

  lemma AcceptExtends(sc: Scope, s: Session, ok: bool)
    requires s.runner.Valid() && MainEnabled(sc, s, Accept(ok))
    ensures Extends(s, ApplyMain(sc, s, Accept(ok)))
  {
  }

  lemma DialExtends(sc: Scope, s: Session, t: Target, ok: bool)
    requires s.runner.Valid() && MainEnabled(sc, s, Dial(t, ok)) && s.dialed.None?
    ensures Extends(s, ApplyMain(sc, s, Dial(t, ok)))
  {
  }

  lemma OpenExtends(sc: Scope, s: Session, ok: bool)
    requires s.phase.Opening? && s.attempts == []
    requires s.runner.Valid() && !s.copyFailed
    ensures Extends(s, ApplyMain(sc, s, OpenChannel(ok)))
  {
  }

  lemma DeferredExtends(s: Session)
    requires StageOk(s) && s.phase.Returning?
    ensures Extends(s, PopDeferred(s))
  {
  }

  /** A change that leaves the requests alone. */
  lemma LinksExtend(s: Session, t: Session)
    requires LifeExtends(s, t) && LinkExtends(s.client, t.client) && LinkExtends(s.runner, t.runner)
    requires t.toRunner == s.toRunner && t.toClient == s.toClient
    ensures Extends(s, t)
  {
  }

  lemma CopyLinksExtend(sc: Scope, s: Session, m: MainEvent)
    requires s.runner.Valid() && MainEnabled(sc, s, m) && s.phase.Copying?
    ensures LinkExtends(s.client, ApplyMain(sc, s, m).client) && LinkExtends(s.runner, ApplyMain(sc, s, m).runner)
  {
  }

  lemma CopyExtends(sc: Scope, s: Session, m: MainEvent)
    requires s.runner.Valid() && MainEnabled(sc, s, m) && s.phase.Copying?
    ensures Extends(s, ApplyMain(sc, s, m))
  {
    CopyLinksExtend(sc, s, m);
    LinksExtend(s, ApplyMain(sc, s, m));
  }

  lemma MainExtends(sc: Scope, s: Session, m: MainEvent)
    requires SessionInv(sc, s) && MainEnabled(sc, s, m)
    ensures Extends(s, ApplyMain(sc, s, m))
  {
    if s.phase.Copying? {
      CopyExtends(sc, s, m);
    } else if m.RunDeferred? {
      DeferredExtends(s);
    } else if m.OpenChannel? {
      OpenExtends(sc, s, m.ok);
    } else if m.Accept? {
      AcceptExtends(sc, s, m.ok);
    } else {
      DialExtends(sc, s, m.target, m.ok);
    }
  }

  lemma PumpExtends(sc: Scope, s: Session, p: PumpEvent)
    requires SessionInv(sc, s) && PumpEnabled(s, p)
    ensures Extends(s, ApplyPump(s, p))
  {
    LinksExtend(s, ApplyPump(s, p));
  }

  lemma WatcherExtends(s: Session, w: WatcherEvent)
    ensures Extends(s, ApplyWatcher(s, w))
  {
    match w
    case CloseRunner => LinksExtend(s, ApplyWatcher(s, CloseRunner));
    case _ => LinksExtend(s, ApplyWatcher(s, w));
  }

  lemma KeepaliveExtends(s: Session, k: KeepaliveEvent)
    ensures Extends(s, ApplyKeepalive(s, k))
  {
    LinksExtend(s, ApplyKeepalive(s, k));
  }

  lemma ForwardExtends(f: Forwarder, near: Link, far: Link, e: ForwardEvent)
    requires ForwarderOk(f, near, far) && ForwardEnabled(f, near, far, e)
    ensures ForwarderExtends(f, ApplyForward(f, near, far, e))
  {
  }

  lemma PeerOnLinkExtends(l: Link, asks: Forwarder, answers: Forwarder, v: PeerEvent)
    requires PeerEnabled(l, asks, answers, v)
    ensures LinkExtends(l, PeerOnLink(l, v))
    ensures ForwarderExtends(asks, PeerAsks(asks, v)) && ForwarderExtends(answers, PeerAnswers(answers, v))
  {
  }

  lemma PeerExtends(sc: Scope, s: Session, side: Side, v: PeerEvent)
    requires PeerEnabled(LinkOf(s, side), Fwd(s, From(side)), Fwd(s, Towards(side)), v)
    ensures Extends(s, ApplyPeer(s, side, v))
  {
    PeerOnLinkExtends(LinkOf(s, side), Fwd(s, From(side)), Fwd(s, Towards(side)), v);
    if side.Client? {
      assert LifeExtends(s, ApplyPeer(s, Client, v));
    } else {
      assert LifeExtends(s, ApplyPeer(s, Runner, v));
    }
  }

  lemma ForwarderAloneExtends(s: Session, d: Direction, g: Forwarder)
    requires ForwarderExtends(Fwd(s, d), g)
    ensures Extends(s, WithFwd(s, d, g))
  {
  }

  /** Every enabled event extends the session's history; leaving the queue is not the session's own doing. */
  lemma StepExtends(sc: Scope, s: Session, e: Event) returns (t: Session)
    requires SessionInv(sc, s) && Enabled(sc, s, e)
    ensures t == Apply(sc, s, e) && Extends(s, t)
    ensures t.phase.Queued? <==> s.phase.Queued?
  {
    match e
    case Main(m) => t := ApplyMain(sc, s, m); MainExtends(sc, s, m);
    case Pump(p) => t := ApplyPump(s, p); PumpExtends(sc, s, p);
    case Watch(w) => t := ApplyWatcher(s, w); WatcherExtends(s, w);
    case Keep(k) => t := ApplyKeepalive(s, k); KeepaliveExtends(s, k);
    case Forward(d, f) =>
      var g := ApplyForward(Fwd(s, d), Near(s, d), Far(s, d), f);
      t := WithFwd(s, d, g);
      ForwardExtends(Fwd(s, d), Near(s, d), Far(s, d), f);
      ForwarderAloneExtends(s, d, g);
    case Peer(side, v) => t := ApplyPeer(s, side, v); PeerExtends(sc, s, side, v);
  }
}
