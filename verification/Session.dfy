/** One SSH session of the gateway (`handleChannel`), as a state machine.

    The goroutines that serve a channel interleave freely.  Every atomic action of a goroutine is
    one event, and so is everything the environment does: the two peers, the clock, and the calls
    whose outcome the gateway does not control.  `Enabled` says when an event may happen and
    `Apply` what it does.

    Each peer's whole future output is a constant of the state (`stream`, `incoming`).  A theorem
    about all states is thereby a theorem about all finite outputs of the peers. */
module Session {
  import opened Wrappers

  newtype Byte = x: int | 0 <= x < 0x100

  // ---------------------------------------------------------------- channels

  /** One SSH channel as the gateway's library sees it.

      `closed` is set when the peer's CLOSE has arrived or the transport is gone.  From then on
      blocked calls return, data that has already arrived can still be read, and nothing can be sent. */
  datatype Link = Link(
    up: bool,               // the channel has been accepted or opened
    stream: seq<Byte>,      // all that the peer will ever write
    arrived: nat,           // how much of it has arrived
    eof: bool,              // the peer's EOF has arrived
    closed: bool,
    read: nat,              // how much of it `Read` has handed out
    sent: seq<Byte>,        // what the gateway has sent to the peer
    eofSent: bool,          // the gateway's EOF has gone out
    closeSent: bool)        // the gateway has called Close
  {
    /** A message to the peer can still be sent. */
    predicate Open() { up && !closed && !closeSent }

    /** The next `Read` returns io.EOF. */
    predicate Exhausted() { read == arrived && (eof || closed) }

    predicate Valid() {
      && read <= arrived <= |stream|
      && (eof ==> arrived == |stream|)
    }
  }

  /** The state of one `io.Copy`. */
  datatype Copy = Reading | Writing(buf: seq<Byte>)

  function Buffered(c: Copy): seq<Byte> {
    if c.Writing? then c.buf else []
  }

  // ---------------------------------------------------------------- requests

  datatype Request = Request(kind: string, wantReply: bool, payload: seq<Byte>)

  /** What `range requests` yields: the loop returns at a nil request. */
  datatype Delivery = Nil | Req(req: Request)

  predicate WantsReply(d: Delivery) { d.Req? && d.req.wantReply }

  datatype FwdPc =
    | FwdOff                  // not started
    | Idle                    // at the head of the `range` loop
    | Awaiting                // blocked in SendRequest until the far side answers
    | Replying(ok: bool)      // SendRequest returned for a request that wants a reply
    | FwdDone

  datatype Forwarder = Forwarder(
    incoming: seq<Delivery>,  // all requests the near side will ever make
    arrived: nat,
    pc: FwdPc,
    taken: nat,               // requests consumed from the queue
    sent: seq<Request>,       // requests sent to the far side
    answers: seq<bool>,       // the far side's answers, in order of arrival
    replyTo: seq<nat>,        // the calls of Reply: which request ...
    replyOk: seq<bool>,       // ... and with which verdict
    delivered: nat)           // how many of these reached the near side

  // ---------------------------------------------------------------- sessions

  /** The main goroutine, from `go handleChannel` to its return. */
  datatype Phase =
    | Queued                  // still in the library's queue of new channels
    | Accepting
    | Dialing
    | Opening
    | Copying(copy: Copy)     // io.Copy(clientChannel, runnerChannel)
    | Returning               // running the deferred calls
    | Ended

  datatype Deferred = CloseClientChannel | CloseRunnerConn | CloseRunnerChannel | CloseSessionDone | CancelKeepalive

  datatype PumpPc = PumpOff | Pumping(copy: Copy) | HalfClosing | PumpDone

  datatype WatcherPc = WatchOff | Watching | Woken | WatchDone

  datatype KeepalivePc = KeepOff | Calling | Selecting | KeepDone

  datatype Activity = ConnectionActivity | KeepaliveActivity

  /** Where the gateway dials: the user name and the runner's domain. */
  datatype Target = Target(sandboxId: string, domain: string)

  datatype Session = Session(
    phase: Phase,
    defers: seq<Deferred>,    // the stack of deferred calls, top last
    copyFailed: bool,         // the runner-to-client copy ended with a write error
    client: Link,
    runner: Link,
    dialed: Option<Target>,   // the connection to the runner that was dialled, if any
    runnerConnClosed: bool,
    pump: PumpPc,
    pumpFailed: bool,
    watcher: WatcherPc,
    keepalive: KeepalivePc,
    attempts: seq<Activity>,  // UpdateLastActivity calls
    tick: bool,               // the ticker's one-element buffer is full
    cancelled: bool,          // keepAliveContext is cancelled
    doneCloses: nat,          // how often sessionDone has been closed
    toRunner: Forwarder,      // client requests
    toClient: Forwarder)      // runner requests

  /** What the goroutines of a session share with the rest of the connection. */
  datatype Scope = Scope(connClosed: bool, target: Target)

  // ---------------------------------------------------------------- events

  datatype Side = Client | Runner

  datatype Direction = ToRunner | ToClient

  datatype MainEvent =
    | Accept(ok: bool) | Dial(target: Target, ok: bool) | OpenChannel(ok: bool)
    | Read(n: nat) | ReadEnd | Write(n: nat) | WriteFail
    | RunDeferred

  datatype PumpEvent = PumpRead(n: nat) | PumpReadEnd | PumpWrite(n: nat) | PumpWriteFail | CloseWrite

  datatype WatcherEvent = Wake | CloseRunner | QuitWatching

  datatype KeepaliveEvent = CallReturns | TakeTick | QuitKeepalive | Tick

  datatype ForwardEvent = TakeRequest | SendFails | SendReply | QuitForwarding

  datatype PeerEvent = Data(n: nat) | Eof | Close | MakeRequest | Answer(ok: bool)

  datatype Event =
    | Main(m: MainEvent)
    | Pump(p: PumpEvent)
    | Watch(w: WatcherEvent)
    | Keep(k: KeepaliveEvent)
    | Forward(dir: Direction, f: ForwardEvent)
    | Peer(side: Side, v: PeerEvent)

  function LinkOf(s: Session, side: Side): Link {
    if side.Client? then s.client else s.runner
  }

  function Fwd(s: Session, dir: Direction): Forwarder {
    if dir.ToRunner? then s.toRunner else s.toClient
  }

  function WithFwd(s: Session, dir: Direction, f: Forwarder): Session {
    if dir.ToRunner? then s.(toRunner := f) else s.(toClient := f)
  }

  function Near(s: Session, dir: Direction): Link {
    if dir.ToRunner? then s.client else s.runner
  }

  function Far(s: Session, dir: Direction): Link {
    if dir.ToRunner? then s.runner else s.client
  }

  /** The direction of the requests that `side` makes. */
  function From(side: Side): Direction {
    if side.Client? then ToRunner else ToClient
  }

  /** The direction of the requests that `side` answers. */
  function Towards(side: Side): Direction {
    if side.Client? then ToClient else ToRunner
  }

  // ---------------------------------------------------------------- enabledness

  predicate CanRead(l: Link, c: Copy, n: nat) {
    c.Reading? && l.up && 0 < n && l.read + n <= l.arrived
  }

  predicate CanWrite(l: Link, c: Copy, n: nat) {
    c.Writing? && l.Open() && 0 < n <= |c.buf|
  }

  predicate CanTake(f: Forwarder) {
    f.pc.Idle? && f.taken < f.arrived <= |f.incoming|
  }

  predicate MainEnabled(sc: Scope, s: Session, m: MainEvent) {
    match m
    case Accept(ok) => s.phase.Accepting? && (ok ==> !s.client.closed)
    case Dial(t, ok) => s.phase.Dialing? && t == sc.target
    case OpenChannel(ok) => s.phase.Opening?
    case Read(n) => s.phase.Copying? && CanRead(s.runner, s.phase.copy, n)
    case ReadEnd => s.phase.Copying? && s.phase.copy.Reading? && s.runner.Exhausted()
    case Write(n) => s.phase.Copying? && CanWrite(s.client, s.phase.copy, n)
    case WriteFail => s.phase.Copying? && s.phase.copy.Writing? && !s.client.Open()
    case RunDeferred => s.phase.Returning? && s.defers != []
  }

  predicate PumpEnabled(s: Session, p: PumpEvent) {
    match p
    case PumpRead(n) => s.pump.Pumping? && CanRead(s.client, s.pump.copy, n)
    case PumpReadEnd => s.pump.Pumping? && s.pump.copy.Reading? && s.client.Exhausted()
    case PumpWrite(n) => s.pump.Pumping? && CanWrite(s.runner, s.pump.copy, n)
    case PumpWriteFail => s.pump.Pumping? && s.pump.copy.Writing? && !s.runner.Open()
    case CloseWrite => s.pump.HalfClosing?
  }

  predicate WatcherEnabled(sc: Scope, s: Session, w: WatcherEvent) {
    match w
    case Wake => s.watcher.Watching? && sc.connClosed
    case CloseRunner => s.watcher.Woken?
    case QuitWatching => s.watcher.Watching? && s.doneCloses > 0
  }

  /** The ticker exists from the return of the first call on. */
  predicate KeepaliveEnabled(s: Session, k: KeepaliveEvent) {
    match k
    case CallReturns => s.keepalive.Calling?
    case TakeTick => s.keepalive.Selecting? && s.tick
    case QuitKeepalive => s.keepalive.Selecting? && s.cancelled
    case Tick => s.keepalive.Selecting? || (s.keepalive.Calling? && |s.attempts| > 1)
  }

  predicate ForwardEnabled(f: Forwarder, near: Link, far: Link, e: ForwardEvent) {
    match e
    case TakeRequest => CanTake(f)
    case SendFails => f.pc.Awaiting? && far.closed
    case SendReply => f.pc.Replying?
    case QuitForwarding => f.pc.Idle? && f.taken == f.arrived && near.closed
  }

  /** What a peer may do on its channel `l`; it makes the requests of `asks` and answers those of `answers`. */
  predicate PeerEnabled(l: Link, asks: Forwarder, answers: Forwarder, v: PeerEvent) {
    && l.up && !l.closed
    && match v
       case Data(n) => !l.eof && 0 < n && l.arrived + n <= |l.stream|
       case Eof => !l.eof && l.arrived == |l.stream|
       case Close => true
       case MakeRequest => asks.arrived < |asks.incoming|
       case Answer(ok) => answers.pc.Awaiting?
  }

  predicate Enabled(sc: Scope, s: Session, e: Event) {
    match e
    case Main(m) => MainEnabled(sc, s, m)
    case Pump(p) => PumpEnabled(s, p)
    case Watch(w) => WatcherEnabled(sc, s, w)
    case Keep(k) => KeepaliveEnabled(s, k)
    case Forward(d, f) => ForwardEnabled(Fwd(s, d), Near(s, d), Far(s, d), f)
    case Peer(side, v) => PeerEnabled(LinkOf(s, side), Fwd(s, From(side)), Fwd(s, Towards(side)), v)
  }

  // ---------------------------------------------------------------- effects

  function ReadChunk(l: Link, n: nat): Copy
    requires l.read + n <= l.arrived <= |l.stream|
  {
    Writing(l.stream[l.read..l.read + n])
  }

  /** Sending the first `n` bytes of the buffer, as far as the peer's window allows. */
  function WriteChunk(l: Link, buf: seq<Byte>, n: nat): (Link, Copy)
    requires n <= |buf|
  {
    (l.(sent := l.sent + buf[..n]), if n == |buf| then Reading else Writing(buf[n..]))
  }

  /** The head of the queue is consumed and `SendRequest` is called on the far channel. */
  function Take(f: Forwarder, far: Link): Forwarder
    requires CanTake(f)
  {
    match f.incoming[f.taken]
    case Nil => f.(pc := FwdDone)
    case Req(r) =>
      var g := f.(taken := f.taken + 1);
      if !far.Open() then
        g.(pc := if r.wantReply then Replying(false) else Idle)
      else
        g.(sent := g.sent + [r], pc := if r.wantReply then Awaiting else Idle)
  }

  function GiveReply(f: Forwarder, near: Link): Forwarder
    requires f.pc.Replying? && f.taken > 0
  {
    f.(pc := Idle,
       replyTo := f.replyTo + [f.taken - 1],
       replyOk := f.replyOk + [f.pc.ok],
       delivered := if near.Open() then f.delivered + 1 else f.delivered)
  }

  /** Everything that `handleChannel` starts once the runner's channel is open. */
  function StartGoroutines(s: Session): Session {
    s.(phase := Copying(Reading),
       defers := s.defers + [CloseRunnerChannel, CloseSessionDone, CancelKeepalive],
       runner := s.runner.(up := true),
       pump := Pumping(Reading),
       watcher := Watching,
       keepalive := Calling,
       attempts := [ConnectionActivity],
       toRunner := s.toRunner.(pc := Idle),
       toClient := s.toClient.(pc := Idle))
  }

  function Closing(l: Link): Link {
    l.(closeSent := true)
  }

  function RunOne(s: Session, d: Deferred): Session {
    s.(client := if d.CloseClientChannel? then Closing(s.client) else s.client,
       runnerConnClosed := s.runnerConnClosed || d.CloseRunnerConn?,
       runner := if d.CloseRunnerChannel? then Closing(s.runner) else s.runner,
       doneCloses := s.doneCloses + if d.CloseSessionDone? then 1 else 0,
       cancelled := s.cancelled || d.CancelKeepalive?)
  }

  /** The deferred calls run last in, first out. */
  function PopDeferred(s: Session): Session
    requires s.defers != []
  {
    var rest := s.defers[..|s.defers| - 1];
    RunOne(s, s.defers[|s.defers| - 1]).(defers := rest, phase := if rest == [] then Ended else Returning)
  }

  /** Structural facts that make `Apply` well defined. */
  predicate Sane(s: Session) {
    && s.client.Valid() && s.runner.Valid()
    && (s.toRunner.pc.Replying? ==> s.toRunner.taken > 0)
    && (s.toClient.pc.Replying? ==> s.toClient.taken > 0)
  }

  function ApplyMain(sc: Scope, s: Session, m: MainEvent): Session
    requires s.runner.Valid() && MainEnabled(sc, s, m)
  {
    match m
    case Accept(ok) =>
      if ok then s.(phase := Dialing, client := s.client.(up := true), defers := [CloseClientChannel])
      else s.(phase := Ended)
    case Dial(t, ok) =>
      if ok then s.(phase := Opening, dialed := Some(t), defers := s.defers + [CloseRunnerConn])
      else s.(phase := Returning, client := Closing(s.client))
    case OpenChannel(ok) => if ok then StartGoroutines(s) else s.(phase := Returning)
    case Read(n) =>
      s.(phase := Copying(ReadChunk(s.runner, n)), runner := s.runner.(read := s.runner.read + n))
    case ReadEnd => s.(phase := Returning)
    case Write(n) =>
      var (l, c) := WriteChunk(s.client, s.phase.copy.buf, n);
      s.(client := l, phase := Copying(c))
    case WriteFail => s.(phase := Returning, copyFailed := true)
    case RunDeferred => PopDeferred(s)
  }

  function ApplyPump(s: Session, p: PumpEvent): Session
    requires s.client.Valid() && PumpEnabled(s, p)
  {
    match p
    case PumpRead(n) =>
      s.(pump := Pumping(ReadChunk(s.client, n)), client := s.client.(read := s.client.read + n))
    case PumpReadEnd => s.(pump := HalfClosing)
    case PumpWrite(n) =>
      var (l, c) := WriteChunk(s.runner, s.pump.copy.buf, n);
      s.(runner := l, pump := Pumping(c))
    case PumpWriteFail => s.(pump := HalfClosing, pumpFailed := true)
    case CloseWrite =>
      s.(pump := PumpDone, runner := if s.runner.Open() then s.runner.(eofSent := true) else s.runner)
  }

  function ApplyWatcher(s: Session, w: WatcherEvent): Session {
    match w
    case Wake => s.(watcher := Woken)
    case CloseRunner => s.(watcher := WatchDone, runner := Closing(s.runner))
    case QuitWatching => s.(watcher := WatchDone)
  }

  function ApplyKeepalive(s: Session, k: KeepaliveEvent): Session {
    match k
    case CallReturns => s.(keepalive := Selecting)
    case TakeTick => s.(keepalive := Calling, tick := false, attempts := s.attempts + [KeepaliveActivity])
    case QuitKeepalive => s.(keepalive := KeepDone)
    case Tick => s.(tick := true)
  }

  function ApplyForward(f: Forwarder, near: Link, far: Link, e: ForwardEvent): Forwarder
    requires ForwardEnabled(f, near, far, e) && (f.pc.Replying? ==> f.taken > 0)
  {
    match e
    case TakeRequest => Take(f, far)
    case SendFails => f.(pc := Replying(false))
    case SendReply => GiveReply(f, near)
    case QuitForwarding => f.(pc := FwdDone)
  }

  function PeerOnLink(l: Link, v: PeerEvent): Link {
    match v
    case Data(n) => l.(arrived := l.arrived + n)
    case Eof => l.(eof := true)
    case Close => l.(closed := true)
    case MakeRequest => l
    case Answer(ok) => l
  }

  function PeerAsks(f: Forwarder, v: PeerEvent): Forwarder {
    if v.MakeRequest? then f.(arrived := f.arrived + 1) else f
  }

  function PeerAnswers(f: Forwarder, v: PeerEvent): Forwarder {
    if v.Answer? then f.(pc := Replying(v.ok), answers := f.answers + [v.ok]) else f
  }

  function ApplyPeer(s: Session, side: Side, v: PeerEvent): Session {
    if side.Client? then
      s.(client := PeerOnLink(s.client, v), toRunner := PeerAsks(s.toRunner, v), toClient := PeerAnswers(s.toClient, v))
    else
      s.(runner := PeerOnLink(s.runner, v), toClient := PeerAsks(s.toClient, v), toRunner := PeerAnswers(s.toRunner, v))
  }

  function Apply(sc: Scope, s: Session, e: Event): Session
    requires Sane(s) && Enabled(sc, s, e)
  {
    match e
    case Main(m) => ApplyMain(sc, s, m)
    case Pump(p) => ApplyPump(s, p)
    case Watch(w) => ApplyWatcher(s, w)
    case Keep(k) => ApplyKeepalive(s, k)
    case Forward(d, f) => WithFwd(s, d, ApplyForward(Fwd(s, d), Near(s, d), Far(s, d), f))
    case Peer(side, v) => ApplyPeer(s, side, v)
  }

  // ---------------------------------------------------------------- initial states

  function FreshLink(stream: seq<Byte>): Link {
    Link(false, stream, 0, false, false, 0, [], false, false)
  }

  function FreshForwarder(incoming: seq<Delivery>): Forwarder {
    Forwarder(incoming, 0, FwdOff, 0, [], [], [], [], 0)
  }

  /** What the two peers of a session will do over its lifetime. */
  datatype Peers = Peers(
    clientStream: seq<Byte>, runnerStream: seq<Byte>,
    clientRequests: seq<Delivery>, runnerRequests: seq<Delivery>)

  function NewSession(p: Peers): Session {
    Session(Queued, [], false, FreshLink(p.clientStream), FreshLink(p.runnerStream), None, false,
            PumpOff, false, WatchOff, KeepOff, [], false, false, 0,
            FreshForwarder(p.clientRequests), FreshForwarder(p.runnerRequests))
  }
}
