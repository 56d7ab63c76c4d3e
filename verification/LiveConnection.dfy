/** The connection as the source writes it: `handleConnection` as straight-line code with early returns,
    and the connection's variables and its session objects updated in place.  Every action is proved to be
    the step of the state machine in `Connection` that has its name. */
module LiveConnections {
  import opened Wrappers
  import opened Session
  import opened SessionInvariant
  import opened History
  import opened Connection
  import opened Runs
  import opened LiveSessions

  function Views(ss: seq<LiveSession>): (r: seq<Session>)
    reads ss
    ensures |r| == |ss| && forall i :: 0 <= i < |ss| ==> r[i] == ss[i].View()
  {
    seq(|ss|, i requires 0 <= i < |ss| reads ss => ss[i].View())
  }

  class LiveConnection {
    const token: string
    var admission: Admission
    var clientUp: bool
    var waiting: bool
    var connCloses: nat
    var looping: bool
    var taken: nat
    var sessions: seq<LiveSession>

    /** No two sessions share an object. */
    ghost predicate Apart()
      reads this
    {
      forall i, j :: 0 <= i < j < |sessions| ==> sessions[i] != sessions[j]
    }

    function View(): Conn
      reads this, sessions
    {
      Conn(token, admission, clientUp, waiting, connCloses, looping, taken, Views(sessions))
    }

    /** The sessions there were are still there, in their places, and all others have been created since. */
    twostate predicate OnlyNewAdded()
      reads this
    {
      old(sessions) <= sessions && forall k :: |old(sessions)| <= k < |sessions| ==> fresh(sessions[k])
    }

    constructor (token: string)
      ensures View() == Init(token) && sessions == []
    {
      this.token := token;
      admission, clientUp, waiting, connCloses := Unchecked, true, false, 0;
      looping, taken, sessions := false, 0, [];
    }

    /** The library shuts down every channel of the connection. */
    method ShutDown()
      requires Apart()
      modifies this`clientUp, sessions
      ensures View() == Disconnect(old(View()))
    {
      for i := 0 to |sessions|
        invariant clientUp == old(clientUp)
        invariant forall k :: 0 <= k < |sessions| ==>
          sessions[k].View() == if k < i then CloseClientSide(old(sessions[k].View())) else old(sessions[k].View())
      {
        sessions[i].LoseClient();
      }
      clientUp := false;
      assert Views(sessions) == Disconnect(old(View())).sessions;
    }

    method CloseAndRefuse()
      requires Apart()
      modifies this`clientUp, this`admission, sessions
      ensures View() == Refuse(old(View()))
    {
      ShutDown();
      admission := Refused;
    }

    /** The waiter is started, then the loop over new channels. */
    method StartServing(target: Target)
      modifies this`admission, this`waiting, this`looping
      ensures View() == Serve(old(View()), target)
    {
      admission := Serving(target);
      waiting := true;
      looping := true;
    }

    /** A goroutine is started for the next channel in the queue. */
    method TakeNext()
      requires Apart() && taken < |sessions|
      modifies this`taken, sessions
      ensures View() == old(View()).(taken := old(taken) + 1,
                          sessions := old(View()).sessions[old(taken) := old(View()).sessions[old(taken)].(phase := Accepting)])
    {
      sessions[taken].Begin();
      taken := taken + 1;
      assert Views(sessions) == old(Views(sessions))[old(taken) := old(Views(sessions))[old(taken)].(phase := Accepting)];
    }

    method Enqueue(p: Peers)
      requires Apart()
      modifies this`sessions
      ensures Apart() && OnlyNewAdded()
      ensures View() == old(View()).(sessions := old(View()).sessions + [NewSession(p)])
    {
      var s := new LiveSession(p);
      sessions := sessions + [s];
      assert Views(sessions) == old(Views(sessions)) + [NewSession(p)];
    }

    /** One atomic action of one session: the others do not notice. */
    method SessionTurn(i: nat, e: Event)
      requires Apart() && Inv(View()) && CanStep(View(), At(i, e))
      modifies sessions
      ensures View() == Step(old(View()), At(i, e))
    {
      ghost var was := View();
      TurnAllowed(was, i, e);
      sessions[i].Turn(ScopeOf(View()), e);
      assert Views(sessions) == was.sessions[i := Apply(ScopeOf(was), was.sessions[i], e)];
    }

    /** From the user name to the loop over channels: each check in turn, and out at the first that fails. */
    method Admit(validation: ApiResult<Validation>, domain: ApiResult<Option<string>>, state: ApiResult<Option<string>>)
        returns (ghost es: seq<ConnEvent>)
      requires Apart() && admission.Unchecked?
      modifies this`admission, this`clientUp, this`waiting, this`looping, sessions
      ensures IsRun(old(View()), es) && View() == After(old(View()), es)
      ensures admission.Serving? <==>
        && token != "" && validation.ApiOk? && validation.value.valid && domain.ApiOk? && domain.value.Some?
        && (validation.value.sandboxId == "" || state == ApiOk(Some("started")))
      ensures admission.Serving? ==> admission.target == Target(validation.value.sandboxId, domain.value.value)
      ensures !admission.Serving? ==> admission.Refused? && !clientUp
    {
      ghost var start := View();
      var e := CheckToken(validation);
      es := Then(start, [], e);
      if admission.Refused? { return; }
      e := FindDomain(domain);
      es := Then(start, es, e);
      if admission.Refused? { return; }
      e := ServeIfStarted(state);
      es := Then(start, es, e);
    }

    method CheckToken(validation: ApiResult<Validation>) returns (ghost e: ConnEvent)
      requires Apart() && admission.Unchecked?
      modifies this`admission, this`clientUp, sessions
      ensures CanStep(old(View()), e) && View() == Step(old(View()), e)
      ensures admission == if token != "" && validation.ApiOk? && validation.value.valid
                           then Validated(validation.value.sandboxId) else Refused
      ensures e == if token == "" then RefuseEmptyToken else Validate(validation)
    {
      if token == "" {
        e := RefuseEmptyToken;
        CloseAndRefuse();
        return;
      }
      e := Validate(validation);
      if validation.ApiError? || !validation.value.valid {
        CloseAndRefuse();
        return;
      }
      admission := Validated(validation.value.sandboxId);
    }

    method FindDomain(domain: ApiResult<Option<string>>) returns (ghost e: ConnEvent)
      requires Apart() && admission.Validated?
      modifies this`admission, this`clientUp, sessions
      ensures CanStep(old(View()), e) && View() == Step(old(View()), e)
      ensures admission == if domain.ApiOk? && domain.value.Some?
                           then RunnerKnown(Target(old(admission).sandboxId, domain.value.value)) else Refused
      ensures e == FindRunner(old(admission).sandboxId, domain)
    {
      e := FindRunner(admission.sandboxId, domain);
      if domain.ApiError? || domain.value.None? {
        CloseAndRefuse();
        return;
      }
      admission := RunnerKnown(Target(admission.sandboxId, domain.value.value));
    }

    method ServeIfStarted(state: ApiResult<Option<string>>) returns (ghost e: ConnEvent)
      requires Apart() && admission.RunnerKnown?
      modifies this`admission, this`clientUp, this`waiting, this`looping, sessions
      ensures CanStep(old(View()), e) && View() == Step(old(View()), e)
      ensures admission == var target := old(admission).target;
                           if target.sandboxId == "" || state == ApiOk(Some(STARTED)) then Serving(target) else Refused
      ensures e == var id := old(admission).target.sandboxId; if id == "" then SkipStateCheck else CheckState(id, state)
    {
      var target := admission.target;
      if target.sandboxId != "" {
        e := CheckState(target.sandboxId, state);
        if state != ApiOk(Some(STARTED)) {
          CloseAndRefuse();
          return;
        }
      } else {
        e := SkipStateCheck;
      }
      StartServing(target);
    }

    /** The waiter, the loop over channels, and what the client does to the connection. */
    method HousekeepingTurn(e: ConnEvent)
      requires Apart() && CanStep(View(), e)
      requires e.NewChannel? || e.ClientDies? || e.WaiterFires? || e.TakeChannel? || e.LoopEnds?
      modifies this, sessions
      ensures View() == Step(old(View()), e) && Apart()
      ensures OnlyNewAdded()
    {
      match e {
        case NewChannel(p) => Enqueue(p);
        case ClientDies => ShutDown();
        case WaiterFires => FireConnClosed();
        case TakeChannel => TakeNext();
        case LoopEnds => looping := false;
      }
    }

    /** `serverConn.Wait()` has returned: `connClosed` is closed. */
    method FireConnClosed()
      modifies this`waiting, this`connCloses
      ensures View() == old(View()).(waiting := false, connCloses := old(connCloses) + 1)
    {
      waiting := false;
      connCloses := connCloses + 1;
    }

    /** The checks, one at a time. */
    method AdmissionTurn(e: ConnEvent)
      requires Apart() && CanStep(View(), e)
      requires e.RefuseEmptyToken? || e.Validate? || e.FindRunner? || e.SkipStateCheck? || e.CheckState?
      modifies this`admission, this`clientUp, this`waiting, this`looping, sessions
      ensures View() == Step(old(View()), e)
    {
      ghost var same;
      match e {
        case RefuseEmptyToken => same := CheckToken(ApiError);
        case Validate(validation) => same := CheckToken(validation);
        case FindRunner(_, domain) => same := FindDomain(domain);
        case SkipStateCheck => same := ServeIfStarted(ApiError);
        case CheckState(_, state) => same := ServeIfStarted(state);
      }
      assert same == e;
    }

    /** One event of the connection or of one of its sessions.  The object keeps the invariant, no session is
        lost, and what any session has done stays done. */
    method Turn(e: ConnEvent)
      requires Apart() && Inv(View()) && CanStep(View(), e)
      modifies this, sessions
      ensures View() == Step(old(View()), e) && Inv(View()) && Apart()
      ensures OnlyNewAdded()
      ensures forall i :: 0 <= i < |old(sessions)| ==> Extends(old(View()).sessions[i], View().sessions[i])
    {
      StepKeepsAll(View(), e);
      if e.At? {
        SessionTurn(e.i, e.e);
      } else if e.NewChannel? || e.ClientDies? || e.WaiterFires? || e.TakeChannel? || e.LoopEnds? {
        HousekeepingTurn(e);
      } else {
        AdmissionTurn(e);
      }
    }

    /** The object goes through any run of the state machine, from whatever state it is in.  What is proved
        of the states of all runs is thus proved of the object, from its construction on. */
    method Run(es: seq<ConnEvent>)
      requires Apart() && Inv(View()) && IsRun(View(), es)
      modifies this, sessions
      ensures View() == After(old(View()), es) && Inv(View()) && Apart()
      ensures OnlyNewAdded()
      decreases es
    {
      if es != [] {
        Turn(es[0]);
        Run(es[1..]);
      }
    }
  }

  lemma StepKeepsAll(c: Conn, e: ConnEvent)
    requires Inv(c) && CanStep(c, e)
    ensures Inv(Step(c, e))
    ensures forall i :: 0 <= i < |c.sessions| ==>
              i < |Step(c, e).sessions| && Extends(c.sessions[i], Step(c, e).sessions[i])
  {
    StepInv(c, e);
    forall i | 0 <= i < |c.sessions|
      ensures i < |Step(c, e).sessions| && Extends(c.sessions[i], Step(c, e).sessions[i])
    {
      ConnStepExtends(c, e, i);
    }
  }

  /** A run goes on for one event. */
  lemma Then(start: Conn, es: seq<ConnEvent>, e: ConnEvent) returns (more: seq<ConnEvent>)
    requires IsRun(start, es) && CanStep(After(start, es), e)
    ensures more == es + [e] && IsRun(start, more) && After(start, more) == Step(After(start, es), e)
  {
    RunExtend(start, es, e);
    more := es + [e];
  }

  lemma TurnAllowed(c: Conn, i: nat, e: Event)
    requires Inv(c) && CanStep(c, At(i, e))
    ensures SessionInv(ScopeOf(c), c.sessions[i]) && Enabled(ScopeOf(c), c.sessions[i], e)
    ensures Step(c, At(i, e)) == c.(sessions := c.sessions[i := Apply(ScopeOf(c), c.sessions[i], e)])
  {
    assert SessionAtInv(c, i);
  }
}
