/** Agent-first authentication: a bounded number of agent keys, then at most one password. */
module PasswordAuth {
  import opened Wrappers

  const MAX_AGENT_KEY_ATTEMPTS: nat := 4

  // ---------- What the server and the agent answer ----------

  /** Exceptions: a refused authentication, a failing transport, any other, or one no handler names. */
  datatype Fault = Refusal | TransportFault | OtherFault | Interrupt

  datatype Attempt = Accepted(furtherSteps: bool) | Raised(fault: Fault)

  predicate Refused(a: Attempt) {
    a.Raised? && a.fault.Refusal?
  }

  // An entry that is `None` is no text.
  datatype Allowed = NotAList | Methods(items: seq<Option<string>>)

  datatype Probe = Listed(allowed: Allowed) | NoneAccepted | ProbeRaised(fault: Fault)

  datatype Keys = KeysRaised(fault: Fault) | Keys(attempts: seq<Attempt>)

  /** `openFault` is raised by the agent's factory; `keys[i]` is what authenticating with key `i` does;
    `secret` is raised by the password getter. */
  datatype World = World(
    probe: Probe, openFault: Option<Fault>, keys: Keys, closeFails: bool,
    secret: Option<Fault>, password: Attempt)

  datatype Reason =
    | MethodsUnknown | UnexpectedlyAccepted | InvalidMethodList | AgentIncomplete | MultiStep | AgentUnqueried
    | AgentInvalid | AgentRefused | AgentNotClosed | PasswordRefused | PasswordIncomplete | NoIdentity | NoMethod

  datatype Outcome = Success | AuthError(reason: Reason) | Propagated(fault: Fault)

  datatype Action = Probed | Opened | TriedKey(key: nat) | Closed | AskedPassword | TriedPassword

  // ---------- The offered methods ----------

  predicate ValidMethod(m: Option<string>) {
    m.Some? && 0 < |m.value| <= 64
  }

  predicate ValidList(allowed: Allowed) {
    allowed.Methods? && |allowed.items| <= 16 && forall i :: 0 <= i < |allowed.items| ==> ValidMethod(allowed.items[i])
  }

  predicate Offers(w: World, m: string) {
    w.probe.Listed? && ValidList(w.probe.allowed) && Some(m) in w.probe.allowed.items
  }

  // ---------- The agent ----------

  predicate AgentOpens(w: World) {
    Offers(w, "publickey") && w.openFault.None?
  }

  /** The error handlers around the agent. */
  function AgentError(fault: Fault): Outcome {
    match fault
    case Refusal => AuthError(AgentRefused)
    case TransportFault => AuthError(AgentUnqueried)
    case OtherFault => AuthError(AgentInvalid)
    case Interrupt => Propagated(Interrupt)
  }

  /** How one key that was not refused ends the authentication. */
  function KeyOutcome(attempt: Attempt): Outcome
    requires !Refused(attempt)
  {
    match attempt
    case Accepted(furtherSteps) => if furtherSteps then AuthError(MultiStep) else Success
    case Raised(fault) => if fault.TransportFault? then AuthError(AgentIncomplete) else AgentError(fault)
  }

  /** `n` keys are tried: each but the last was refused, and it stops at a key that was not refused,
    at the fourth key or after the last. */
  predicate TriesExactly(attempts: seq<Attempt>, n: nat) {
    && n <= |attempts| && n <= 4
    && (forall i :: 0 <= i < n - 1 ==> Refused(attempts[i]))
    && (n < |attempts| && n < 4 ==> n > 0 && !Refused(attempts[n - 1]))
  }

  predicate StopsAtKey(attempts: seq<Attempt>, n: nat) {
    0 < n <= |attempts| && !Refused(attempts[n - 1])
  }

  function KeyActions(n: nat): seq<Action> {
    seq(n, i requires 0 <= i < n => TriedKey(i))
  }

  /** How the agent part ends when `n` keys were tried; `None` means that the password is next. A failing
    close replaces whatever was the result, even a success. */
  function AgentOutcome(w: World, n: nat): Option<Outcome> {
    if w.openFault.Some? then Some(AgentError(w.openFault.value))
    else if w.closeFails then Some(AuthError(AgentNotClosed))
    else if w.keys.KeysRaised? then Some(AgentError(w.keys.fault))
    else if StopsAtKey(w.keys.attempts, n) then Some(KeyOutcome(w.keys.attempts[n - 1]))
    else None
  }

  /** The agent part of `authenticate`; the close is its `finally` block. */
  method TryAgent(w: World) returns (r: Option<Outcome>, n: nat, trace: seq<Action>)
    ensures if w.openFault.Some? || w.keys.KeysRaised? then n == 0 else TriesExactly(w.keys.attempts, n)
    ensures trace == if w.openFault.None? then [Opened] + KeyActions(n) + [Closed] else []
    ensures r == AgentOutcome(w, n)
  {
    r, n, trace := None, 0, [];
    if w.openFault.Some? {
      return Some(AgentError(w.openFault.value)), 0, [];
    }
    trace := [Opened];
    if w.keys.KeysRaised? {
      r := Some(AgentError(w.keys.fault));
    } else {
      var attempts := w.keys.attempts;
      while n < |attempts| && n < MAX_AGENT_KEY_ATTEMPTS && r.None?
        invariant n <= |attempts| && n <= MAX_AGENT_KEY_ATTEMPTS
        invariant trace == [Opened] + KeyActions(n)
        invariant r.None? ==> forall i :: 0 <= i < n ==> Refused(attempts[i])
        invariant r.Some? ==>
            TriesExactly(attempts, n) && StopsAtKey(attempts, n) && r.value == KeyOutcome(attempts[n - 1])
        decreases |attempts| - n
      {
        trace := trace + [TriedKey(n)];
        assert KeyActions(n + 1) == KeyActions(n) + [TriedKey(n)];
        if !Refused(attempts[n]) {
          r := Some(KeyOutcome(attempts[n]));
        }
        n := n + 1;
      }
    }
    trace := trace + [Closed];
    if w.closeFails {
      r := Some(AuthError(AgentNotClosed));
    }
  }

  // ---------- The password ----------

  function PasswordError(fault: Fault): Outcome {
    match fault
    case Refusal => AuthError(PasswordRefused)
    case TransportFault => AuthError(PasswordIncomplete)
    case _ => Propagated(fault)
  }

  /** The password getter runs inside the same handlers as the attempt. */
  function PasswordOutcome(w: World): Outcome {
    if w.secret.Some? then PasswordError(w.secret.value)
    else
      match w.password
      case Accepted(furtherSteps) => if furtherSteps then AuthError(MultiStep) else Success
      case Raised(fault) => PasswordError(fault)
  }

  /** Every one of the first four agent keys was refused and the agent was closed. */
  predicate AgentExhausted(w: World) {
    && w.openFault.None? && !w.closeFails && w.keys.Keys?
    && forall i :: 0 <= i < |w.keys.attempts| && i < 4 ==> Refused(w.keys.attempts[i])
  }

  predicate AsksForPassword(w: World) {
    Offers(w, "password") && (Offers(w, "publickey") ==> AgentExhausted(w))
  }

  /** One of the first four keys is accepted for good, all before it are refused and the agent closes. */
  predicate KeySucceeds(w: World, k: nat) {
    && AgentOpens(w) && !w.closeFails && w.keys.Keys? && k < |w.keys.attempts| && k < 4
    && (forall i :: 0 <= i < k ==> Refused(w.keys.attempts[i]))
    && w.keys.attempts[k] == Accepted(false)
  }

  function Count(trace: seq<Action>, a: Action): nat {
    multiset(trace)[a]
  }

  predicate AgentFirst(trace: seq<Action>, n: nat, withAgent: bool, asked: bool, sent: bool) {
    trace == [Probed] + (if withAgent then [Opened] + KeyActions(n) + [Closed] else [])
             + (if asked then [AskedPassword] else []) + (if sent then [TriedPassword] else [])
  }

  /** The error handlers around the probe for the offered methods. */
  function ProbeError(fault: Fault): Outcome {
    if fault.Refusal? || fault.TransportFault? then AuthError(MethodsUnknown) else Propagated(fault)
  }

  /** `authenticate`. */
  method Authenticate(w: World) returns (r: Outcome, n: nat, trace: seq<Action>)
    ensures n <= 4
    ensures AgentFirst(trace, n, AgentOpens(w), AsksForPassword(w), AsksForPassword(w) && w.secret.None?)
    ensures r.Success? <==>
        (exists k: nat :: KeySucceeds(w, k)) || (AsksForPassword(w) && w.secret.None? && w.password == Accepted(false))
    ensures AsksForPassword(w) ==> r == PasswordOutcome(w)
    ensures AgentOpens(w) && w.keys.Keys? ==> TriesExactly(w.keys.attempts, n)
    ensures Offers(w, "publickey") && AgentOutcome(w, n).Some? ==> r == AgentOutcome(w, n).value
    ensures r == AuthError(InvalidMethodList) <==> w.probe.Listed? && !ValidList(w.probe.allowed)
    ensures w.probe.NoneAccepted? <==> r == AuthError(UnexpectedlyAccepted)
    ensures w.probe.ProbeRaised? ==> r == ProbeError(w.probe.fault)
    ensures r == AuthError(NoMethod) <==>
            w.probe.Listed? && ValidList(w.probe.allowed) && !Offers(w, "publickey") && !Offers(w, "password")
    ensures r == AuthError(NoIdentity) <==> Offers(w, "publickey") && !Offers(w, "password") && AgentExhausted(w)
  {
    n, trace := 0, [Probed];
    match w.probe {
      case NoneAccepted =>
        return AuthError(UnexpectedlyAccepted), 0, trace;
      case ProbeRaised(fault) =>
        return ProbeError(fault), 0, trace;
      case Listed(allowed) =>
        if !ValidList(allowed) {
          return AuthError(InvalidMethodList), 0, trace;
        }
        var publicKey, password := Some("publickey") in allowed.items, Some("password") in allowed.items;
        if publicKey {
          var outcome, tried, agentTrace := TryAgent(w);
          n, trace := tried, trace + agentTrace;
          if outcome.Some? {
            assert outcome.value.Success? ==> KeySucceeds(w, n - 1);
            return outcome.value, n, trace;
          }
        }
        if password {
          trace := trace + [AskedPassword];
          if w.secret.None? {
            trace := trace + [TriedPassword];
          }
          return PasswordOutcome(w), n, trace;
        }
        return AuthError(if publicKey then NoIdentity else NoMethod), n, trace;
    }
  }

  // ---------- Which fault is reported how ----------

  /** A list of methods is at most sixteen nonempty texts of at most 64 characters. */
  lemma ValidListIff(allowed: Allowed)
    ensures ValidList(allowed) <==>
      && allowed != NotAList && |allowed.items| < 17
      && forall m :: m in allowed.items ==> m != None && m != Some("") && |m.value| < 65
  {
    if allowed.Methods? {
      assert forall i :: 0 <= i < |allowed.items| ==> allowed.items[i] in allowed.items;
    }
  }

  /** The password attempt, or its getter, raised this fault. */
  predicate PasswordRaises(w: World, fault: Fault) {
    w.secret == Some(fault) || (w.secret.None? && w.password == Raised(fault))
  }

  /** How each end of the password attempt is reported; what the handlers do not name goes through as it is. */
  lemma PasswordTable(w: World)
    ensures var r := PasswordOutcome(w);
            && (r == Success <==> w.secret.None? && w.password == Accepted(false))
            && (r == AuthError(MultiStep) <==> w.secret.None? && w.password == Accepted(true))
            && (r == AuthError(PasswordRefused) <==> PasswordRaises(w, Refusal))
            && (r == AuthError(PasswordIncomplete) <==> PasswordRaises(w, TransportFault))
            && (r == Propagated(OtherFault) <==> PasswordRaises(w, OtherFault))
            && (r == Propagated(Interrupt) <==> PasswordRaises(w, Interrupt))
  {
  }

  /** The agent's factory raised this fault, or it was closed well after listing its keys raised it. */
  predicate AgentRaises(w: World, fault: Fault) {
    w.openFault == Some(fault) || (w.openFault.None? && !w.closeFails && w.keys == KeysRaised(fault))
  }

  /** The agent was closed well after its `n`th key ended like this. */
  predicate KeyEnds(w: World, n: nat, attempt: Attempt) {
    && w.openFault.None? && !w.closeFails && w.keys.Keys? && 0 < n <= |w.keys.attempts|
    && w.keys.attempts[n - 1] == attempt
  }

  /** How each end of the agent part is reported: a failing close before all else, then listing the keys, then the
    last key tried. Only a refusal of every key leaves the matter open. */
  lemma AgentTable(w: World, n: nat)
    ensures var r := AgentOutcome(w, n);
            && (r == Some(Success) <==> KeyEnds(w, n, Accepted(false)))
            && (r == Some(AuthError(MultiStep)) <==> KeyEnds(w, n, Accepted(true)))
            && (r == Some(AuthError(AgentIncomplete)) <==> KeyEnds(w, n, Raised(TransportFault)))
            && (r == Some(AuthError(AgentUnqueried)) <==> AgentRaises(w, TransportFault))
            && (r == Some(AuthError(AgentRefused)) <==> AgentRaises(w, Refusal))
            && (r == Some(AuthError(AgentInvalid)) <==>
                  AgentRaises(w, OtherFault) || KeyEnds(w, n, Raised(OtherFault)))
            && (r == Some(Propagated(Interrupt)) <==> AgentRaises(w, Interrupt) || KeyEnds(w, n, Raised(Interrupt)))
            && (r == Some(AuthError(AgentNotClosed)) <==> w.openFault.None? && w.closeFails)
            && (r == None <==>
                  && w.openFault.None? && !w.closeFails && w.keys.Keys?
                  && (n == 0 || n > |w.keys.attempts| || w.keys.attempts[n - 1] == Raised(Refusal)))
  {
  }

  /** A probe that cannot be answered leaves the methods unknown; what the handlers do not name goes through. */
  lemma ProbeTable(fault: Fault)
    ensures ProbeError(Refusal) == AuthError(MethodsUnknown) == ProbeError(TransportFault)
    ensures fault == OtherFault || fault == Interrupt ==> ProbeError(fault) == Propagated(fault)
  {
  }

  // ---------- Over all worlds ----------

  lemma {:induction false} KeyActionsCount(n: nat, a: Action)
    ensures Count(KeyActions(n), a) == if a.TriedKey? && a.key < n then 1 else 0
  {
    if n > 0 {
      KeyActionsCount(n - 1, a);
      assert KeyActions(n) == KeyActions(n - 1) + [TriedKey(n - 1)];
    }
  }

  lemma ActionsCount(trace: seq<Action>, n: nat, withAgent: bool, asked: bool, sent: bool, a: Action)
    requires AgentFirst(trace, n, withAgent, asked, sent)
    ensures Count(trace, a) ==
            match a
            case Probed => 1
            case Opened => if withAgent then 1 else 0
            case Closed => if withAgent then 1 else 0
            case TriedKey(k) => if withAgent && k < n then 1 else 0
            case AskedPassword => if asked then 1 else 0
            case TriedPassword => if sent then 1 else 0
  {
    KeyActionsCount(n, a);
  }

  /** Whatever happens, an agent that was opened is closed exactly once and one that was not is never
    closed; each key is tried and the password asked for at most once. */
  lemma AgentIsClosedOnce(w: World, trace: seq<Action>, n: nat, asked: bool, sent: bool, k: nat)
    requires AgentFirst(trace, n, AgentOpens(w), asked, sent)
    ensures Count(trace, Closed) == Count(trace, Opened) == if AgentOpens(w) then 1 else 0
    ensures Count(trace, AskedPassword) <= 1 && Count(trace, TriedPassword) <= 1
    ensures Count(trace, TriedKey(k)) == if AgentOpens(w) && k < n then 1 else 0
  {
    ActionsCount(trace, n, AgentOpens(w), asked, sent, Closed);
    ActionsCount(trace, n, AgentOpens(w), asked, sent, Opened);
    ActionsCount(trace, n, AgentOpens(w), asked, sent, AskedPassword);
    ActionsCount(trace, n, AgentOpens(w), asked, sent, TriedPassword);
    ActionsCount(trace, n, AgentOpens(w), asked, sent, TriedKey(k));
  }

  /** At most one key can succeed, and then the password is not asked for. */
  lemma KeySuccessIsFinal(w: World, k: nat, l: nat)
    requires KeySucceeds(w, k)
    ensures KeySucceeds(w, l) ==> l == k
    ensures !AsksForPassword(w)
  {
    assert !Refused(w.keys.attempts[k]);
    assert KeySucceeds(w, l) ==> !Refused(w.keys.attempts[l]);
  }

  // ---------- The password itself ----------

  datatype Getter = Returns(value: string) | Raises(fault: Fault)

  datatype RevealError = EmptySecret | GetterRaised(fault: Fault)

  /** What is remembered after a use. */
  function Remembered(secret: Option<string>, getter: Getter): Option<string> {
    if secret.Some? then secret
    else if getter.Returns? && getter.value != "" then Some(getter.value)
    else None
  }

  function RememberedAfter(secret: Option<string>, getters: seq<Getter>): Option<string>
    decreases getters
  {
    if getters == [] then secret else RememberedAfter(Remembered(secret, getters[0]), getters[1..])
  }

  /** A secret that is fetched on first use; `calls` counts how often the getter was asked. */
  class LazySecret {
    var secret: Option<string>
    var calls: nat

    constructor ()
      ensures secret == None && calls == 0
    {
      secret, calls := None, 0;
    }

    /** The getter is asked only while nothing is remembered. */
    method Reveal(getter: Getter) returns (r: Result<string, RevealError>)
      modifies this
      ensures secret == Remembered(old(secret), getter)
      ensures calls == old(calls) + if old(secret).None? then 1 else 0
      ensures r == if secret.Some? then Ok(secret.value)
                   else if getter.Raises? then Err(GetterRaised(getter.fault))
                   else Err(EmptySecret)
    {
      if secret.None? {
        calls := calls + 1;
        if getter.Raises? {
          return Err(GetterRaised(getter.fault));
        }
        if getter.value == "" {
          return Err(EmptySecret);
        }
        secret := Some(getter.value);
      }
      return Ok(secret.value);
    }
  }

  predicate Empty(getter: Getter) {
    getter.Raises? || getter.value == ""
  }

  /** Over any number of uses the first value that is not empty is the secret, and it stays. */
  lemma {:induction false} FirstValueStays(getters: seq<Getter>, k: nat)
    requires k < |getters| && !Empty(getters[k]) && forall i :: 0 <= i < k ==> Empty(getters[i])
    ensures RememberedAfter(None, getters) == Some(getters[k].value)
  {
    if k > 0 {
      assert Empty(getters[0]);
      FirstValueStays(getters[1..], k - 1);
    } else {
      SecretStays(getters[0].value, getters[1..]);
    }
  }

  lemma {:induction false} SecretStays(value: string, getters: seq<Getter>)
    ensures RememberedAfter(Some(value), getters) == Some(value)
  {
    if getters != [] {
      SecretStays(value, getters[1..]);
    }
  }
}
