/** Facts about whole runs of a connection. */
module Runs {
  import opened Session
  import opened History
  import opened Connection

  lemma DisconnectExtends(s: Session)
    ensures Extends(s, s) && Extends(s, CloseClientSide(s))
    ensures s.phase.Queued? ==> Extends(s, s.(phase := Accepting))
  {
  }

  lemma OtherEventExtends(c: Conn, e: ConnEvent, i: nat)
    requires CanStep(c, e) && i < |c.sessions| && !(e.At? && e.i == i)
    ensures i < |Step(c, e).sessions| && Extends(c.sessions[i], Step(c, e).sessions[i])
  {
    var s, t := c.sessions[i], Step(c, e).sessions[i];
    DisconnectExtends(s);
    assert t == s || t == CloseClientSide(s) || (s.phase.Queued? && t == s.(phase := Accepting));
  }

  /** No event removes a session or undoes anything in one. */
  lemma ConnStepExtends(c: Conn, e: ConnEvent, i: nat)
    requires Inv(c) && CanStep(c, e) && i < |c.sessions|
    ensures i < |Step(c, e).sessions| && Extends(c.sessions[i], Step(c, e).sessions[i])
  {
    assert SessionAtInv(c, i);
    if e.At? && e.i == i {
      var t := StepExtends(ScopeOf(c), c.sessions[i], e.e);
    } else {
      OtherEventExtends(c, e, i);
    }
  }

  /** Over a whole run: what session `i` has done by event `m` is part of what it has done by event `n`. */
  lemma {:induction false} RunExtends(token: string, es: seq<ConnEvent>, m: nat, n: nat, i: nat)
    requires IsRun(Init(token), es) && m <= n <= |es|
    requires i < |StateAt(Init(token), es, m).sessions|
    ensures i < |StateAt(Init(token), es, n).sessions|
    ensures Extends(StateAt(Init(token), es, m).sessions[i], StateAt(Init(token), es, n).sessions[i])
    decreases n
  {
    if m < n {
      RunExtends(token, es, m, n - 1, i);
      ReachableInv(token, es, n - 1);
      StateStep(Init(token), es, n - 1);
      ConnStepExtends(StateAt(Init(token), es, n - 1), es[n - 1], i);
      ExtendsTransitive(StateAt(Init(token), es, m).sessions[i],
                        StateAt(Init(token), es, n - 1).sessions[i],
                        StateAt(Init(token), es, n).sessions[i]);
    }
  }
}
