/** One client connection of the gateway (`handleConnection`): admission, the single waiter that
    closes `connClosed`, the loop over new channels, and an unbounded number of sessions. */
module Connection {
  import opened Wrappers
  import opened Session
  import opened SessionInvariant
  import opened History

  /** Outcome of a call to the platform's API. */
  datatype ApiResult<T> = ApiError | ApiOk(value: T)

  datatype Validation = Validation(valid: bool, sandboxId: string)

  datatype Admission =
    | Unchecked
    | Validated(sandboxId: string)          // the token is valid
    | RunnerKnown(target: Target)           // the runner has a domain
    | Serving(target: Target)
    | Refused

  const STARTED := "started"

  /** `connCloses` counts the closes of `connClosed`; `taken` the channels the loop has handed to
      `handleChannel`.  The sessions from `taken` on still wait in the library's queue. */
  datatype Conn = Conn(
    token: string,
    admission: Admission,
    clientUp: bool,
    waiting: bool,           // the goroutine in serverConn.Wait() is alive
    connCloses: nat,
    looping: bool,           // the loop over new channels runs
    taken: nat,
    sessions: seq<Session>)

  datatype ConnEvent =
    | RefuseEmptyToken
    | Validate(validation: ApiResult<Validation>)
    | FindRunner(sandboxId: string, domain: ApiResult<Option<string>>)
    | SkipStateCheck
    | CheckState(sandboxId: string, state: ApiResult<Option<string>>)
    | NewChannel(peers: Peers)
    | ClientDies
    | WaiterFires
    | TakeChannel
    | LoopEnds
    | At(i: nat, e: Event)

  function Init(token: string): Conn {
    Conn(token, Unchecked, true, false, 0, false, 0, [])
  }

  predicate ConnClosed(c: Conn) { c.connCloses > 0 }

  function ScopeOf(c: Conn): Scope {
    Scope(ConnClosed(c), if c.admission.Serving? then c.admission.target else Target("", ""))
  }

  predicate CanStep(c: Conn, e: ConnEvent) {
    match e
    case RefuseEmptyToken => c.admission.Unchecked? && c.token == ""
    case Validate(v) => c.admission.Unchecked? && c.token != ""
    case FindRunner(sandboxId, domain) => c.admission.Validated? && sandboxId == c.admission.sandboxId
    case SkipStateCheck => c.admission.RunnerKnown? && c.admission.target.sandboxId == ""
    case CheckState(sandboxId, state) =>
      c.admission.RunnerKnown? && sandboxId != "" && sandboxId == c.admission.target.sandboxId
    case NewChannel(p) => c.clientUp
    case ClientDies => c.clientUp
    case WaiterFires => c.waiting && !c.clientUp
    case TakeChannel => c.looping && c.taken < |c.sessions| && c.sessions[c.taken].phase.Queued?
    case LoopEnds => c.looping && !c.clientUp && c.taken == |c.sessions|
    case At(i, ev) =>
      i < |c.sessions| && Sane(c.sessions[i]) && Enabled(ScopeOf(c), c.sessions[i], ev)
  }

  function CloseClientSide(s: Session): Session {
    s.(client := s.client.(closed := true))
  }

  /** The client's transport is gone: the library shuts down every channel of the connection. */
  function Disconnect(c: Conn): Conn {
    c.(clientUp := false, sessions := seq(|c.sessions|, i requires 0 <= i < |c.sessions| => CloseClientSide(c.sessions[i])))
  }

  /** Admission failed: `conn.Close()` and return. */
  function Refuse(c: Conn): Conn {
    Disconnect(c).(admission := Refused)
  }

  /** Admission succeeded: the waiter and the loop start. */
  function Serve(c: Conn, t: Target): Conn {
    c.(admission := Serving(t), waiting := true, looping := true)
  }

  function Step(c: Conn, e: ConnEvent): Conn
    requires CanStep(c, e)
  {
    match e
    case RefuseEmptyToken => Refuse(c)
    case Validate(v) =>
      if v.ApiOk? && v.value.valid then c.(admission := Validated(v.value.sandboxId)) else Refuse(c)
    case FindRunner(sandboxId, domain) =>
      if domain.ApiOk? && domain.value.Some? then c.(admission := RunnerKnown(Target(sandboxId, domain.value.value)))
      else Refuse(c)
    case SkipStateCheck => Serve(c, c.admission.target)
    case CheckState(sandboxId, state) =>
      if state == ApiOk(Some(STARTED)) then Serve(c, c.admission.target) else Refuse(c)
    case NewChannel(p) => c.(sessions := c.sessions + [NewSession(p)])
    case ClientDies => Disconnect(c)
    case WaiterFires => c.(waiting := false, connCloses := c.connCloses + 1)
    case TakeChannel =>
      c.(taken := c.taken + 1, sessions := c.sessions[c.taken := c.sessions[c.taken].(phase := Accepting)])
    case LoopEnds => c.(looping := false)
    case At(i, ev) => c.(sessions := c.sessions[i := Apply(ScopeOf(c), c.sessions[i], ev)])
  }

  // ---------------------------------------------------------------- runs

  /** `es` can happen one after the other, starting in `c`. */
  predicate IsRun(c: Conn, es: seq<ConnEvent>)
    decreases es
  {
    es == [] || (CanStep(c, es[0]) && IsRun(Step(c, es[0]), es[1..]))
  }

  function After(c: Conn, es: seq<ConnEvent>): Conn
    requires IsRun(c, es)
    decreases es
  {
    if es == [] then c else After(Step(c, es[0]), es[1..])
  }

  lemma {:induction false} RunSplit(c: Conn, es: seq<ConnEvent>, n: nat)
    requires IsRun(c, es) && n <= |es|
    ensures IsRun(c, es[..n]) && IsRun(After(c, es[..n]), es[n..])
    ensures After(After(c, es[..n]), es[n..]) == After(c, es)
    decreases n
  {
    if n == 0 {
      assert es[..0] == [] && es[0..] == es;
    } else {
      RunSplit(Step(c, es[0]), es[1..], n - 1);
      assert es[..n][1..] == es[1..][..n - 1];
      assert es[n..] == es[1..][n - 1..];
    }
  }

  lemma {:induction false} RunExtend(c: Conn, es: seq<ConnEvent>, e: ConnEvent)
    requires IsRun(c, es) && CanStep(After(c, es), e)
    ensures IsRun(c, es + [e]) && After(c, es + [e]) == Step(After(c, es), e)
    decreases es
  {
    if es == [] {
      assert es + [e] == [e];
      assert IsRun(Step(c, e), []);
    } else {
      RunExtend(Step(c, es[0]), es[1..], e);
      assert (es + [e])[1..] == es[1..] + [e];
    }
  }

  lemma RunPrepend(c: Conn, e: ConnEvent, es: seq<ConnEvent>)
    requires CanStep(c, e) && IsRun(Step(c, e), es)
    ensures IsRun(c, [e] + es) && After(c, [e] + es) == After(Step(c, e), es)
  {
    assert ([e] + es)[1..] == es;
  }

  lemma {:induction false} RunAppend(c: Conn, es: seq<ConnEvent>, fs: seq<ConnEvent>)
    requires IsRun(c, es) && IsRun(After(c, es), fs)
    ensures IsRun(c, es + fs) && After(c, es + fs) == After(After(c, es), fs)
    decreases es
  {
    if es == [] {
      assert es + fs == fs;
    } else {
      var d := Step(c, es[0]);
      RunAppend(d, es[1..], fs);
      RunPrepend(c, es[0], es[1..] + fs);
      assert es + fs == [es[0]] + (es[1..] + fs);
    }
  }

  /** The state after `n` events of a run. */
  function StateAt(c: Conn, es: seq<ConnEvent>, n: nat): Conn
    requires IsRun(c, es) && n <= |es|
  {
    RunSplit(c, es, n);
    After(c, es[..n])
  }

  lemma {:induction false} StateStep(c: Conn, es: seq<ConnEvent>, n: nat)
    requires IsRun(c, es) && n < |es|
    ensures CanStep(StateAt(c, es, n), es[n])
    ensures StateAt(c, es, n + 1) == Step(StateAt(c, es, n), es[n])
  {
    RunSplit(c, es, n);
    RunSplit(c, es, n + 1);
    RunSplit(c, es[..n + 1], n);
    assert es[..n + 1][..n] == es[..n];
    assert es[..n + 1][n..] == [es[n]];
    var d := After(c, es[..n]);
    assert IsRun(d, [es[n]]);
    assert After(d, [es[n]]) == Step(d, es[n]);
  }

  // ---------------------------------------------------------------- the invariant

  /** What holds of the session with number `i`. */
  predicate SessionAtInv(c: Conn, i: nat)
    requires i < |c.sessions|
  {
    && SessionInv(ScopeOf(c), c.sessions[i])
    && (c.sessions[i].phase.Queued? <==> c.taken <= i)
    && (!c.clientUp ==> c.sessions[i].client.closed)
  }

  predicate Inv(c: Conn) {
    && c.taken <= |c.sessions|
    && (c.admission.Unchecked? || c.admission.Validated? || c.admission.RunnerKnown? ==>
          !c.waiting && !c.looping && c.connCloses == 0 && c.taken == 0)
    && (c.admission.Refused? ==> !c.clientUp && !c.waiting && !c.looping && c.connCloses == 0 && c.taken == 0)
    && (c.admission.Serving? ==> c.connCloses == if c.waiting then 0 else 1)
    && (c.connCloses > 0 ==> !c.clientUp)
    && (c.admission.Serving? && !c.looping ==> c.taken == |c.sessions| && !c.clientUp)
    && forall i :: 0 <= i < |c.sessions| ==> SessionAtInv(c, i)
  }

  lemma InitInv(token: string)
    ensures Inv(Init(token))
  {
  }

  /** A new channel satisfies the session invariant. */
  lemma NewSessionInv(sc: Scope, p: Peers)
    ensures SessionInv(sc, NewSession(p))
  {
  }

  lemma DisconnectSession(sc: Scope, s: Session)
    requires SessionInv(sc, s)
    ensures SessionInv(sc, CloseClientSide(s))
  {
    RequestsFrame(s, CloseClientSide(s));
  }

  /** What the goroutines of a session share may only change in these two ways. */
  lemma ScopeChange(sc: Scope, sc2: Scope, s: Session)
    requires SessionInv(sc, s)
    requires sc.connClosed ==> sc2.connClosed
    requires s.dialed.None? || sc.target == sc2.target
    ensures SessionInv(sc2, s)
  {
  }

  lemma QueuedNotDialed(c: Conn, i: nat)
    requires i < |c.sessions| && SessionAtInv(c, i) && c.taken <= i
    ensures c.sessions[i].dialed.None?
  {
  }

  lemma DisconnectInv(c: Conn)
    requires Inv(c)
    ensures Inv(Disconnect(c))
  {
    var d := Disconnect(c);
    forall i | 0 <= i < |d.sessions|
      ensures SessionAtInv(d, i)
    {
      assert SessionAtInv(c, i);
      DisconnectSession(ScopeOf(c), c.sessions[i]);
    }
  }

  /** A change to the connection that leaves the sessions and what they share alone. */
  lemma SessionsFrame(c: Conn, d: Conn)
    requires Inv(c) && d.sessions == c.sessions && d.taken == c.taken && d.clientUp == c.clientUp
    requires ConnClosed(c) ==> ConnClosed(d)
    requires c.taken == 0 || ScopeOf(c).target == ScopeOf(d).target
    ensures forall i :: 0 <= i < |d.sessions| ==> SessionAtInv(d, i)
  {
    forall i | 0 <= i < |d.sessions|
      ensures SessionAtInv(d, i)
    {
      assert SessionAtInv(c, i);
      if c.taken <= i { QueuedNotDialed(c, i); }
      ScopeChange(ScopeOf(c), ScopeOf(d), c.sessions[i]);
    }
  }

  lemma RefuseInv(c: Conn)
    requires Inv(c) && c.taken == 0 && !c.admission.Serving?
    ensures Inv(Refuse(c))
  {
    DisconnectInv(c);
    SessionsFrame(Disconnect(c), Refuse(c));
  }

  lemma AdmissionInv(c: Conn, e: ConnEvent)
    requires Inv(c) && CanStep(c, e)
    requires e.RefuseEmptyToken? || e.Validate? || e.FindRunner? || e.SkipStateCheck? || e.CheckState?
    ensures Inv(Step(c, e))
  {
    RefuseInv(c);
    if !Step(c, e).admission.Refused? {
      SessionsFrame(c, Step(c, e));
    }
  }

  lemma TakeChannelInv(c: Conn)
    requires Inv(c) && CanStep(c, TakeChannel)
    ensures Inv(Step(c, TakeChannel))
  {
    var d := Step(c, TakeChannel);
    forall i | 0 <= i < |d.sessions|
      ensures SessionAtInv(d, i)
    {
      assert SessionAtInv(c, i);
      if i == c.taken {
        RequestsFrame(c.sessions[i], d.sessions[i]);
      }
    }
  }

  lemma SessionEvent(sc: Scope, s: Session, e: Event)
    requires SessionInv(sc, s) && Enabled(sc, s, e)
    ensures SessionInv(sc, Apply(sc, s, e))
    ensures Apply(sc, s, e).phase.Queued? <==> s.phase.Queued?
    ensures s.client.closed ==> Apply(sc, s, e).client.closed
  {
    var t := SessionStep(sc, s, e);
    var u := StepExtends(sc, s, e);
  }

  lemma SessionEventInv(c: Conn, i: nat, e: Event)
    requires Inv(c) && CanStep(c, At(i, e))
    ensures Inv(Step(c, At(i, e)))
  {
    var d := Step(c, At(i, e));
    forall k | 0 <= k < |d.sessions|
      ensures SessionAtInv(d, k)
    {
      assert SessionAtInv(c, k);
      if k == i {
        SessionEvent(ScopeOf(c), c.sessions[i], e);
      }
    }
  }

  lemma NewChannelInv(c: Conn, p: Peers)
    requires Inv(c) && c.clientUp
    ensures Inv(Step(c, NewChannel(p)))
  {
    var d := Step(c, NewChannel(p));
    NewSessionInv(ScopeOf(c), p);
    forall i | 0 <= i < |d.sessions|
      ensures SessionAtInv(d, i)
    {
      if i < |c.sessions| { assert SessionAtInv(c, i); }
    }
  }

  /** Every event of the connection keeps the invariant, for any number of sessions. */
  lemma StepInv(c: Conn, e: ConnEvent)
    requires Inv(c) && CanStep(c, e)
    ensures Inv(Step(c, e))
  {
    match e
    case NewChannel(p) => NewChannelInv(c, p);
    case ClientDies => DisconnectInv(c);
    case WaiterFires => SessionsFrame(c, Step(c, e));
    case TakeChannel => TakeChannelInv(c);
    case LoopEnds => SessionsFrame(c, Step(c, e));
    case At(i, ev) => SessionEventInv(c, i, ev);
    case _ => AdmissionInv(c, e);
  }

  /** The invariant holds in every state of every run. */
  lemma {:induction false} RunInv(c: Conn, es: seq<ConnEvent>)
    requires Inv(c) && IsRun(c, es)
    ensures Inv(After(c, es))
    decreases es
  {
    if es != [] {
      StepInv(c, es[0]);
      RunInv(Step(c, es[0]), es[1..]);
    }
  }

  lemma ReachableInv(token: string, es: seq<ConnEvent>, n: nat)
    requires IsRun(Init(token), es) && n <= |es|
    ensures Inv(StateAt(Init(token), es, n))
  {
    InitInv(token);
    RunSplit(Init(token), es, n);
    RunInv(Init(token), es[..n]);
  }
}
