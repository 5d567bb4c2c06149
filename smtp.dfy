/**
 * The SMTP exchange `send_email` asks for, as the ordered list of transport calls the configuration
 * calls for, and what happens when that list is run against a server that may refuse any call.
 */
module Smtp {
  import opened Wrappers
  import opened Yaml
  import opened Config
  import opened Mail

  /** One call on the SMTP client: open the connection, upgrade it, authenticate, submit, close. */
  datatype Step =
    | Connect(host: string, port: int)
    | StartTls
    | Login(user: Scalar, password: Scalar)
    | SendMessage(msg: Message)
    | Quit

  /** The submission port used when TLS is on and no port is configured. */
  const SubmissionPort: int := 587
  /** The plain SMTP port used when TLS is off and no port is configured. */
  const PlainPort: int := 25

  /** `smtp_config.get('use_tls', True)` is truthy. */
  predicate UseTls(smtp: SmtpSection) {
    Truthy(smtp.useTls.GetOr(Bool(true)))
  }

  /** `smtp_config.get('port', 587)` on the TLS branch, `smtp_config.get('port', 25)` on the other. */
  function Port(smtp: SmtpSection): int {
    smtp.port.GetOr(if UseTls(smtp) then SubmissionPort else PlainPort)
  }

  /** `smtp_config.get('username') and smtp_config.get('password')` is truthy. */
  predicate HasCredentials(smtp: SmtpSection) {
    Truthy(smtp.username.GetOr(Null)) && Truthy(smtp.password.GetOr(Null))
  }

  /** The calls that open the session: connect, STARTTLS when TLS is on, login when both credentials are truthy. */
  function Handshake(smtp: SmtpSection): seq<Step>
    requires smtp.server.Some?
  {
    [Connect(smtp.server.value, Port(smtp))] +
    (if UseTls(smtp) then [StartTls] else []) +
    (if HasCredentials(smtp) then [Login(smtp.username.value, smtp.password.value)] else [])
  }

  /**
   * The transport calls for one delivery: connect, STARTTLS when TLS is on, login when both credentials
   * are truthy, send, quit. Reading `smtp` and then `server` raises KeyError before any call is made.
   */
  function Plan(smtp: Option<SmtpSection>, msg: Message): (r: Result<seq<Step>, string>)
    ensures smtp.None? ==> r == Failure("smtp")
    ensures smtp.Some? && smtp.value.server.None? ==> r == Failure("server")
    ensures r.Success? <==> smtp.Some? && smtp.value.server.Some?
    ensures r.Success? ==>
              var steps, s := r.value, smtp.value;
              |steps| == 3 + (if UseTls(s) then 1 else 0) + (if HasCredentials(s) then 1 else 0) &&
              // The connection goes to the configured server; an explicit port always wins.
              steps[0].Connect? && steps[0].host == s.server.value &&
              (s.port.Some? ==> steps[0].port == s.port.value) &&
              (s.port.None? ==> steps[0].port == if UseTls(s) then 587 else 25) &&
              // STARTTLS is issued exactly when TLS is on, straight after connecting.
              (StartTls in steps <==> UseTls(s)) &&
              (UseTls(s) ==> steps[1] == StartTls) &&
              // Login happens exactly when both credentials are truthy, right before sending.
              ((exists i :: 0 <= i < |steps| && steps[i].Login?) <==> HasCredentials(s)) &&
              (HasCredentials(s) ==> steps[|steps| - 3] == Login(s.username.value, s.password.value)) &&
              steps[|steps| - 2] == SendMessage(msg) &&
              steps[|steps| - 1] == Quit
  {
    match smtp
    case None => Failure("smtp")
    case Some(s) =>
      match s.server
      case None => Failure("server")
      case Some(_) =>
        var steps := Handshake(s) + [SendMessage(msg), Quit];
        assert HasCredentials(s) ==> steps[|steps| - 3].Login?;
        Success(steps)
  }

  /** Where a session stands: not connected, connected (possibly upgraded, possibly authenticated), message handed over, closed. */
  datatype Phase = Idle | Open(secure: bool, authenticated: bool) | Submitted | Closed

  /**
   * The order in which the script drives its client: STARTTLS only on a fresh connection, login at most
   * once and before sending, one message, then quit. `None` means the call is out of order.
   */
  function Next(p: Phase, step: Step): Option<Phase> {
    match (p, step)
    case (Idle, Connect(_, _)) => Some(Open(false, false))
    case (Open(false, false), StartTls) => Some(Open(true, false))
    case (Open(secure, false), Login(_, _)) => Some(Open(secure, true))
    case (Open(secure, authenticated), SendMessage(_)) => Some(Submitted)
    case (Submitted, Quit) => Some(Closed)
    case _ => None
  }

  /** The phase reached by making the calls in order from `p`, or `None` if one is out of order. */
  function Walk(p: Phase, steps: seq<Step>): Option<Phase>
    decreases |steps|
  {
    if steps == [] then Some(p)
    else
      match Next(p, steps[0])
      case None => None
      case Some(q) => Walk(q, steps[1..])
  }

  lemma {:induction false} WalkAppend(p: Phase, a: seq<Step>, b: seq<Step>)
    ensures Walk(p, a + b) == (match Walk(p, a) case None => None case Some(q) => Walk(q, b))
    decreases |a|
  {
    if a != [] {
      assert (a + b)[0] == a[0] && (a + b)[1..] == a[1..] + b;
      match Next(p, a[0])
      case None =>
      case Some(q) => WalkAppend(q, a[1..], b);
    } else {
      assert a + b == b;
    }
  }

  /**
   * Every plan is a complete session in the script's order, and the session it describes is protected
   * as configured: credentials go over a connection that is upgraded exactly when TLS is on, and the
   * message is submitted on a connection upgraded when TLS is on and authenticated when credentials are given.
   */
  lemma {:induction false} PlanFollowsSession(smtp: SmtpSection, msg: Message)
    requires smtp.server.Some?
    ensures var steps := Plan(Some(smtp), msg).value;
      Walk(Idle, steps) == Some(Closed) &&
      (forall i :: 0 <= i < |steps| && steps[i].Login? ==>
         Walk(Idle, steps[..i]) == Some(Open(UseTls(smtp), false))) &&
      (forall i :: 0 <= i < |steps| && steps[i].SendMessage? ==>
         Walk(Idle, steps[..i]) == Some(Open(UseTls(smtp), HasCredentials(smtp))))
  {
    var steps := Plan(Some(smtp), msg).value;
    var tls, auth := UseTls(smtp), HasCredentials(smtp);
    var opening := [steps[0]] + (if tls then [StartTls] else []);
    var login := if auth then [Login(smtp.username.value, smtp.password.value)] else [];
    var closing := [SendMessage(msg), Quit];
    assert steps == opening + login + closing;
    assert Walk(Idle, opening) == Some(Open(tls, false)) by {
      assert Walk(Idle, [steps[0]]) == Some(Open(false, false));
      WalkAppend(Idle, [steps[0]], if tls then [StartTls] else []);
    }
    assert Walk(Idle, opening + login) == Some(Open(tls, auth)) by {
      WalkAppend(Idle, opening, login);
    }
    assert Walk(Open(tls, auth), closing) == Some(Closed) by {
      assert Walk(Submitted, [Quit]) == Some(Closed) by { assert [Quit][1..] == []; }
      assert closing[1..] == [Quit];
    }
    WalkAppend(Idle, opening + login, closing);
    forall i | 0 <= i < |steps| && steps[i].Login?
      ensures Walk(Idle, steps[..i]) == Some(Open(tls, false))
    {
      assert i == |opening|;
      assert steps[..i] == opening;
    }
    forall i | 0 <= i < |steps| && steps[i].SendMessage?
      ensures Walk(Idle, steps[..i]) == Some(Open(tls, auth))
    {
      assert i == |opening + login|;
      assert steps[..i] == opening + login;
    }
  }

  /** The calls actually made, and whether every one of them succeeded. */
  datatype Delivery = Delivery(attempted: seq<Step>, completed: bool)

  /**
   * Runs the calls in order against a server that accepts or refuses each one; the first refusal raises,
   * and nothing after it is attempted.
   */
  function Deliver(steps: seq<Step>, accepts: Step -> bool): Delivery
    decreases |steps|
  {
    if steps == [] then Delivery([], true)
    else if !accepts(steps[0]) then Delivery([steps[0]], false)
    else
      var rest := Deliver(steps[1..], accepts);
      Delivery([steps[0]] + rest.attempted, rest.completed)
  }

  /**
   * The calls made are a prefix of the plan; the run completes exactly when the server accepts every call,
   * and then every call was made; otherwise the last call made is the first one refused.
   */
  lemma {:induction false} DeliverOutcome(steps: seq<Step>, accepts: Step -> bool)
    ensures var d := Deliver(steps, accepts);
      |d.attempted| <= |steps| && d.attempted == steps[..|d.attempted|] &&
      (d.completed <==> forall i :: 0 <= i < |steps| ==> accepts(steps[i])) &&
      (d.completed ==> d.attempted == steps) &&
      (!d.completed ==>
         |d.attempted| >= 1 && !accepts(d.attempted[|d.attempted| - 1]) &&
         forall i :: 0 <= i < |d.attempted| - 1 ==> accepts(d.attempted[i]))
    decreases |steps|
  {
    if steps != [] && accepts(steps[0]) {
      DeliverOutcome(steps[1..], accepts);
      var rest := Deliver(steps[1..], accepts);
      assert steps == [steps[0]] + steps[1..];
      forall i | 1 <= i < |steps| ensures steps[i] == steps[1..][i - 1] { }
    }
  }

  /** Running a call followed by more calls: a refusal stops at it, an acceptance goes on with the rest. */
  lemma {:induction false} DeliverCons(step: Step, rest: seq<Step>, accepts: Step -> bool)
    ensures Deliver([step] + rest, accepts) ==
            if accepts(step) then Delivery([step] + Deliver(rest, accepts).attempted, Deliver(rest, accepts).completed)
            else Delivery([step], false)
  {
    assert ([step] + rest)[0] == step && ([step] + rest)[1..] == rest;
  }

  /** Running two lists of calls back to back: the second runs only if the first completes. */
  lemma {:induction false} DeliverAppend(a: seq<Step>, b: seq<Step>, accepts: Step -> bool)
    ensures Deliver(a + b, accepts) ==
            if Deliver(a, accepts).completed
            then Delivery(a + Deliver(b, accepts).attempted, Deliver(b, accepts).completed)
            else Deliver(a, accepts)
    decreases |a|
  {
    if a == [] {
      assert a + b == b;
    } else {
      DeliverCons(a[0], a[1..] + b, accepts);
      assert a + b == [a[0]] + (a[1..] + b);
      DeliverAppend(a[1..], b, accepts);
      DeliverCons(a[0], a[1..], accepts);
      assert [a[0]] + a[1..] == a;
    }
  }

  /** Running a plan: the handshake first, and the send and quit only if the whole handshake was accepted. */
  lemma {:induction false} DeliverPlan(smtp: SmtpSection, msg: Message, accepts: Step -> bool)
    requires smtp.server.Some?
    ensures var h := Deliver(Handshake(smtp), accepts);
      Deliver(Plan(Some(smtp), msg).value, accepts) ==
        if h.completed then Delivery(Handshake(smtp) + Deliver([SendMessage(msg), Quit], accepts).attempted,
                                     Deliver([SendMessage(msg), Quit], accepts).completed)
        else h
  {
    assert Plan(Some(smtp), msg).value == Handshake(smtp) + [SendMessage(msg), Quit];
    DeliverAppend(Handshake(smtp), [SendMessage(msg), Quit], accepts);
    var h := Deliver(Handshake(smtp), accepts);
    if h.completed {
      DeliverOutcome(Handshake(smtp), accepts);
    }
  }

  /** Running the closing calls: send, then quit only if the send was accepted. */
  lemma {:induction false} DeliverClosing(msg: Message, accepts: Step -> bool)
    ensures Deliver([SendMessage(msg), Quit], accepts) ==
            if !accepts(SendMessage(msg)) then Delivery([SendMessage(msg)], false)
            else Delivery([SendMessage(msg), Quit], accepts(Quit))
  {
    DeliverCons(SendMessage(msg), [Quit], accepts);
    DeliverCons(Quit, [], accepts);
    assert [SendMessage(msg), Quit] == [SendMessage(msg)] + [Quit] && [Quit] == [Quit] + [];
  }
}
