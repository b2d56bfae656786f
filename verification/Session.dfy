/** Service 0x10: the session state machine with its lazily checked inactivity timer. */
module Session {
  import opened Common

  const DEFAULT := 0x01
  const PROGRAMMING := 0x02
  const EXTENDED := 0x03

  datatype SessionPolicy = SessionPolicy(allowed: map<int, set<int>>, timeout: Time)

  datatype SessionState = SessionState(session: int, lastActivity: Time) {
    predicate Elevated() {
      session != DEFAULT
    }
  }

  /** The session after the inactivity check: an idle elevated session reverts to Default. */
  function Expired(timeout: Time, s: SessionState, now: Time): SessionState {
    if s.Elevated() && now - s.lastActivity >= timeout then s.(session := DEFAULT) else s
  }

  function Touched(s: SessionState, now: Time): SessionState {
    s.(lastActivity := now)
  }

  datatype TransitionResult = TransitionResult(state: SessionState, outcome: Outcome<()>)

  /** A 0x10 request: `checked` is the reading of the inactivity check, `touched` that of the timer reset. */
  function Transited(p: SessionPolicy, s: SessionState, target: int, checked: Time, touched: Time): TransitionResult {
    var s1 := Expired(p.timeout, s, checked);
    if target !in {DEFAULT, EXTENDED, PROGRAMMING} then
      TransitionResult(s1, Rejected(0x22))
    else if target == s1.session then
      TransitionResult(Touched(s1, touched), Accepted(()))
    else if s1.session == DEFAULT && target == PROGRAMMING then
      TransitionResult(s1, Rejected(0x22))
    else if s1.session !in p.allowed || target !in p.allowed[s1.session] then
      TransitionResult(s1, Rejected(0x22))
    else
      TransitionResult(SessionState(target, touched), Accepted(()))
  }

  class SessionStateMachine {
    const policy: SessionPolicy
    var session: int
    var lastActivity: Time

    function State(): SessionState
      reads this
    {
      SessionState(session, lastActivity)
    }

    constructor (policy: SessionPolicy, now: Time)
      ensures this.policy == policy
      ensures State() == SessionState(DEFAULT, now)
    {
      this.policy := policy;
      session := DEFAULT;
      lastActivity := now;
    }

    method Current(now: Time) returns (current: int)
      modifies this
      ensures State() == Expired(policy.timeout, old(State()), now)
      ensures current == session
    {
      CheckTimeout(now);
      current := session;
    }

    method Transition(target: int, checked: Time, touched: Time) returns (outcome: Outcome<()>)
      modifies this
      ensures TransitionResult(State(), outcome) == Transited(policy, old(State()), target, checked, touched)
    {
      CheckTimeout(checked);
      if target !in {DEFAULT, EXTENDED, PROGRAMMING} {
        return Rejected(0x22);
      }
      if target == session {
        Touch(touched);
        return Accepted(());
      }
      if session == DEFAULT && target == PROGRAMMING {
        return Rejected(0x22);
      }
      var allowed := if session in policy.allowed then policy.allowed[session] else {};
      if target !in allowed {
        return Rejected(0x22);
      }
      session := target;
      Touch(touched);
      outcome := Accepted(());
    }

    method Touch(now: Time)
      modifies this`lastActivity
      ensures State() == Touched(old(State()), now)
    {
      lastActivity := now;
    }

    method Reset(now: Time)
      modifies this
      ensures State() == SessionState(DEFAULT, now)
    {
      session := DEFAULT;
      Touch(now);
    }

    method CheckTimeout(now: Time)
      modifies this`session
      ensures State() == Expired(policy.timeout, old(State()), now)
    {
      if session != DEFAULT {
        if now - lastActivity >= policy.timeout {
          session := DEFAULT;
        }
      }
    }
  }
}
