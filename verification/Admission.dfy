/** Who gets a session: the checks of `handleConnection`, over whole runs. */
module AdmissionControl {
  import opened Wrappers
  import opened Session
  import opened Connection
  import opened Safety

  /** The API has confirmed the token and named the sandbox, then named the runner's domain, and, for a
      named sandbox, has then reported that sandbox as started; all in this order and before event `n`. */
  predicate Admitted(es: seq<ConnEvent>, n: nat, t: Target)
    requires n <= |es|
  {
    exists a, b ::
      && 0 <= a < b < n
      && es[a] == Validate(ApiOk(Validation(true, t.sandboxId)))
      && es[b] == FindRunner(t.sandboxId, ApiOk(Some(t.domain)))
      && (t.sandboxId != "" ==> SeenStarted(es, b, n, t.sandboxId))
  }

  predicate SeenStarted(es: seq<ConnEvent>, b: nat, n: nat, sandboxId: string)
    requires n <= |es|
  {
    exists k :: b < k < n && es[k] == CheckState(sandboxId, ApiOk(Some("started")))
  }

  /** The first two checks have been passed. */
  predicate Identified(es: seq<ConnEvent>, n: nat, t: Target)
    requires n <= |es|
  {
    exists a, b ::
      && 0 <= a < b < n
      && es[a] == Validate(ApiOk(Validation(true, t.sandboxId)))
      && es[b] == FindRunner(t.sandboxId, ApiOk(Some(t.domain)))
  }

  predicate Confirmed(es: seq<ConnEvent>, n: nat, sandboxId: string)
    requires n <= |es|
  {
    exists a :: 0 <= a < n && es[a] == Validate(ApiOk(Validation(true, sandboxId)))
  }

  predicate Evidence(token: string, es: seq<ConnEvent>, n: nat, a: Admission)
    requires n <= |es|
  {
    match a
    case Unchecked => true
    case Validated(sandboxId) => token != "" && Confirmed(es, n, sandboxId)
    case RunnerKnown(t) => token != "" && Identified(es, n, t)
    case Serving(t) => token != "" && Admitted(es, n, t)
    case Refused => true
  }

  lemma IdentifiedByRunner(es: seq<ConnEvent>, n: nat, t: Target)
    requires n < |es| && Confirmed(es, n, t.sandboxId)
    requires es[n] == FindRunner(t.sandboxId, ApiOk(Some(t.domain)))
    ensures Identified(es, n + 1, t)
  {
  }

  lemma AdmittedByState(es: seq<ConnEvent>, n: nat, t: Target)
    requires n < |es| && Identified(es, n, t)
    requires t.sandboxId != "" ==> es[n] == CheckState(t.sandboxId, ApiOk(Some(STARTED)))
    ensures Admitted(es, n + 1, t)
  {
  }

  lemma EvidenceLasts(token: string, es: seq<ConnEvent>, n: nat, a: Admission)
    requires n < |es| && Evidence(token, es, n, a)
    ensures Evidence(token, es, n + 1, a)
  {
  }

  /** The only four ways in which the admission state changes. */
  lemma EvidenceStep(token: string, es: seq<ConnEvent>, n: nat, c: Conn)
    requires n < |es| && CanStep(c, es[n]) && c.token == token
    requires Evidence(token, es, n, c.admission)
    ensures Evidence(token, es, n + 1, Step(c, es[n]).admission)
  {
    EvidenceLasts(token, es, n, c.admission);
    var d := Step(c, es[n]);
    match es[n]
    case Validate(v) =>
      if !d.admission.Refused? {
        assert 0 <= n < n + 1;
        assert Confirmed(es, n + 1, v.value.sandboxId);
      }
    case FindRunner(sandboxId, domain) =>
      if !d.admission.Refused? { IdentifiedByRunner(es, n, d.admission.target); }
    case SkipStateCheck => AdmittedByState(es, n, c.admission.target);
    case CheckState(sandboxId, state) =>
      if !d.admission.Refused? { AdmittedByState(es, n, c.admission.target); }
    case _ => assert d.admission == c.admission || d.admission.Refused?;
  }

  lemma {:induction false} EvidenceAt(token: string, es: seq<ConnEvent>, n: nat)
    requires IsRun(Init(token), es) && n <= |es|
    ensures ConnAt(token, es, n).token == token
    ensures Evidence(token, es, n, ConnAt(token, es, n).admission)
    decreases n
  {
    if n > 0 {
      EvidenceAt(token, es, n - 1);
      StateStep(Init(token), es, n - 1);
      EvidenceStep(token, es, n - 1, ConnAt(token, es, n - 1));
    }
  }

  /** A session leaves the queue only on an admitted connection. */
  lemma OnlyAdmittedSessionsRun(token: string, es: seq<ConnEvent>, n: nat, i: nat)
    requires HasSession(token, es, n, i) && !SessionIn(token, es, n, i).phase.Queued?
    ensures token != "" && ConnAt(token, es, n).admission.Serving?
    ensures Admitted(es, n, ConnAt(token, es, n).admission.target)
  {
    SessionHolds(token, es, n, i);
    EvidenceAt(token, es, n);
  }

  /** Whenever the gateway dials, it dials the runner of the sandbox that was validated for this token,
      with exactly that sandbox id and domain, after the sandbox has been seen started. */
  lemma DialsOnlyWhatWasAdmitted(token: string, es: seq<ConnEvent>, j: nat, i: nat, t: Target, ok: bool)
    requires IsRun(Init(token), es) && j < |es|
    requires es[j] == At(i, Main(Dial(t, ok)))
    ensures token != "" && Admitted(es, j, t)
  {
    StateStep(Init(token), es, j);
    assert HasSession(token, es, j, i);
    OnlyAdmittedSessionsRun(token, es, j, i);
  }

  lemma RefusedKeepsQueue(c: Conn)
    requires Inv(c) && c.admission.Refused?
    ensures !c.clientUp && forall i :: 0 <= i < |c.sessions| ==> c.sessions[i].phase.Queued?
  {
    forall i | 0 <= i < |c.sessions|
      ensures c.sessions[i].phase.Queued?
    {
      assert SessionAtInv(c, i);
    }
  }

  lemma RefusedStep(c: Conn, e: ConnEvent)
    requires CanStep(c, e) && c.admission.Refused?
    ensures Step(c, e).admission.Refused?
  {
  }

  /** A refused connection is cut off and never gets a session past the queue, now or later. */
  lemma {:induction false} RefusalIsFinal(token: string, es: seq<ConnEvent>, m: nat, n: nat)
    requires IsRun(Init(token), es) && m <= n <= |es|
    requires ConnAt(token, es, m).admission.Refused?
    ensures ConnAt(token, es, n).admission.Refused? && !ConnAt(token, es, n).clientUp
    ensures forall i :: 0 <= i < |ConnAt(token, es, n).sessions| ==> ConnAt(token, es, n).sessions[i].phase.Queued?
    decreases n
  {
    if m < n {
      RefusalIsFinal(token, es, m, n - 1);
      StateStep(Init(token), es, n - 1);
      RefusedStep(ConnAt(token, es, n - 1), es[n - 1]);
    }
    ReachableInv(token, es, n);
    RefusedKeepsQueue(ConnAt(token, es, n));
  }
}
