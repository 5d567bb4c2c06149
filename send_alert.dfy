/**
 * `send_email` and `main`: one delivery attempt inside a catch-all handler, and the mapping from
 * arguments, configuration and delivery to the process exit status.
 */
module SendAlert {
  import opened Wrappers
  import opened Yaml
  import opened Text
  import opened Config
  import opened Mail
  import opened Smtp

  /** Why a delivery attempt failed: a configuration key was missing, or the server refused a call. */
  datatype Failure = MissingKey(key: string) | Rejected(step: Step)

  /** `send_email`'s verdict: `True` with the success line it prints, or `False` with the exception it reports. */
  datatype SendResult = Sent(notice: string) | NotSent(failure: Failure)

  /** The transport calls made, in order, and the verdict. */
  datatype Report = Report(attempted: seq<Step>, result: SendResult)

  /** The success line: the same joined recipient string as the To header. */
  function SuccessNotice(recipients: seq<string>): (line: string)
    ensures line == "Email alert sent to: " + ToHeader(recipients)
  {
    "Email alert sent to: " + Join(recipients, ", ")
  }

  /** The message, then the transport calls; the first missing key (`from`, `to`, `smtp`, `server`) ends it. */
  function Planned(section: AlertSection, subject: string, body: string, context: Context): (r: Result<seq<Step>, string>)
    ensures r.Success? <==>
              section.sender.Some? && section.recipients.Some? && section.smtp.Some? && section.smtp.value.server.Some?
    ensures r.Failure? ==>
              r.error == (if section.sender.None? then "from"
                          else if section.recipients.None? then "to"
                          else if section.smtp.None? then "smtp"
                          else "server")
    ensures r.Success? ==>
              r.value == Plan(section.smtp, BuildMessage(section, subject, body, context).value).value
  {
    match BuildMessage(section, subject, body, context)
    case Failure(key) => Failure(key)
    case Success(msg) => Plan(section.smtp, msg)
  }

  /**
   * What `send_email` does, as a function of the configuration, the arguments, the clock and host name,
   * and the server's answer to each call.
   */
  function Attempt(section: AlertSection, subject: string, body: string, context: Context,
                   accepts: Step -> bool): (r: Report)
    // A missing key fails before any call is made.
    ensures Planned(section, subject, body, context).Failure? ==>
              r == Report([], NotSent(MissingKey(Planned(section, subject, body, context).error)))
    // Otherwise the calls made are a prefix of the plan, ...
    ensures Planned(section, subject, body, context).Success? ==>
              var steps := Planned(section, subject, body, context).value;
              |r.attempted| <= |steps| && r.attempted == steps[..|r.attempted|] &&
              // ... it succeeds exactly when the server accepts every call, quit included, ...
              (r.result.Sent? <==> forall i :: 0 <= i < |steps| ==> accepts(steps[i])) &&
              (r.result.Sent? ==> r.attempted == steps) &&
              // ... and a failure names the refused call, the last one made, after which nothing is attempted:
              // every earlier call was accepted.
              (r.result.NotSent? ==>
                 r.attempted != [] && r.result.failure == Rejected(r.attempted[|r.attempted| - 1]) &&
                 !accepts(r.result.failure.step) &&
                 forall i :: 0 <= i < |r.attempted| - 1 ==> accepts(r.attempted[i]))
    ensures r.result.Sent? ==> r.result.notice == "Email alert sent to: " + ToHeader(section.recipients.value)
  {
    match Planned(section, subject, body, context)
    case Failure(key) => Report([], NotSent(MissingKey(key)))
    case Success(steps) =>
      var d := Deliver(steps, accepts);
      DeliverOutcome(steps, accepts);
      if d.completed then Report(d.attempted, Sent(SuccessNotice(section.recipients.value)))
      else Report(d.attempted, NotSent(Rejected(d.attempted[|d.attempted| - 1])))
  }

  /** One call on the SMTP client: it is recorded as made, and it succeeds when the server accepts it. */
  method Call(step: Step, accepts: Step -> bool, made: seq<Step>) returns (ok: bool, made': seq<Step>)
    ensures ok == accepts(step)
    ensures made' == made + [step]
  {
    ok, made' := accepts(step), made + [step];
  }

  /**
   * Opening the session: `smtplib.SMTP(server, port)`, then `starttls()` when TLS is on, then `login()`
   * when both credentials are truthy, stopping at the first call the server refuses.
   */
  method OpenSession(smtp: SmtpSection, accepts: Step -> bool) returns (ok: bool, made: seq<Step>)
    requires smtp.server.Some?
    ensures ok == Deliver(Handshake(smtp), accepts).completed
    ensures made == Deliver(Handshake(smtp), accepts).attempted
  {
    var connect := Connect(smtp.server.value, Port(smtp));
    ghost var secure := if UseTls(smtp) then [StartTls] else [];
    ghost var login := if HasCredentials(smtp) then [Login(smtp.username.value, smtp.password.value)] else [];
    assert Handshake(smtp) == [connect] + (secure + login);
    DeliverCons(connect, secure + login, accepts);
    ok, made := Call(connect, accepts, []);
    if !ok {
      return;
    }
    if UseTls(smtp) {
      DeliverCons(StartTls, login, accepts);
      ok, made := Call(StartTls, accepts, made);
      if !ok {
        return;
      }
    }
    if HasCredentials(smtp) {
      var credentials := Login(smtp.username.value, smtp.password.value);
      DeliverCons(credentials, [], accepts);
      assert login == [credentials] + [];
      ok, made := Call(credentials, accepts, made);
    }
  }

  /**
   * `send_email` step by step: build the message, look up the SMTP settings, open the session, then
   * `send_message()` and `quit()`, stopping at the first call the server refuses. Returns the verdict and
   * the calls made: nothing is sent when a key is missing, and otherwise the calls and verdict are those of
   * running the plan.
   */
  method SendEmail(section: AlertSection, subject: string, body: string, context: Context,
                   accepts: Step -> bool) returns (sent: bool, attempted: seq<Step>)
    ensures Planned(section, subject, body, context).Failure? ==> !sent && attempted == []
    ensures Planned(section, subject, body, context).Success? ==>
              sent == Deliver(Planned(section, subject, body, context).value, accepts).completed &&
              attempted == Deliver(Planned(section, subject, body, context).value, accepts).attempted
  {
    sent, attempted := false, [];
    if section.sender.None? || section.recipients.None? {
      return;
    }
    var msg := Message(section.sender.value, ToHeader(section.recipients.value),
                       Subject(section.subjectPrefix, subject),
                       FullBody(context.timestamp, context.hostname, body));
    if section.smtp.None? || section.smtp.value.server.None? {
      return;
    }
    assert msg == BuildMessage(section, subject, body, context).value;
    sent, attempted := Transmit(section.smtp.value, msg, accepts);
  }

  /**
   * The transport half of `send_email`: open the session, then `send_message()` and `quit()`, stopping at
   * the first call the server refuses; the calls and verdict are those of running the plan.
   */
  method Transmit(smtp: SmtpSection, msg: Message, accepts: Step -> bool) returns (sent: bool, attempted: seq<Step>)
    requires smtp.server.Some?
    ensures sent == Deliver(Plan(Some(smtp), msg).value, accepts).completed
    ensures attempted == Deliver(Plan(Some(smtp), msg).value, accepts).attempted
  {
    DeliverPlan(smtp, msg, accepts);
    DeliverClosing(msg, accepts);
    var ok;
    ok, attempted := OpenSession(smtp, accepts);
    sent := false;
    if !ok {
      return;
    }
    assert attempted == Handshake(smtp) by { DeliverOutcome(Handshake(smtp), accepts); }
    ok, attempted := Call(SendMessage(msg), accepts, attempted);
    if !ok {
      return;
    }
    ok, attempted := Call(Quit, accepts, attempted);
    sent := ok;
  }

  /** How one run of the script ends. */
  datatype Outcome =
    | Usage                        // fewer than two arguments
    | Crashed(error: LoadError)    // `load_config` raised
    | AlertsOff                    // `load_config` returned None
    | Delivered(report: Report)    // `send_email` returned True
    | Undelivered(report: Report)  // `send_email` returned False

  /** `main`, given `sys.argv`, the configuration file, the clock and host name, and the server's answers. */
  function Main(argv: seq<string>, file: ConfigFile, context: Context, accepts: Step -> bool): (o: Outcome)
    ensures |argv| < 3 ==> o == Usage
    ensures |argv| >= 3 ==>
              (o.Crashed? <==> LoadConfig(file).Raised?) &&
              (o.AlertsOff? <==> LoadConfig(file).Disabled?) &&
              ((o.Delivered? || o.Undelivered?) <==> LoadConfig(file).Enabled?)
    ensures o.Delivered? || o.Undelivered? ==>
              LoadConfig(file).Enabled? &&
              o.report == Attempt(LoadConfig(file).section, argv[1], argv[2], context, accepts) &&
              (o.Delivered? <==> o.report.result.Sent?)
  {
    if |argv| < 3 then Usage
    else
      match LoadConfig(file)
      case Raised(e) => Crashed(e)
      case Disabled => AlertsOff
      case Enabled(section) =>
        var report := Attempt(section, argv[1], argv[2], context, accepts);
        if report.result.Sent? then Delivered(report) else Undelivered(report)
  }

  /** The exit status: 0 when alerting is off or the alert went out, 1 otherwise (an uncaught exception exits with 1 too). */
  function ExitCode(o: Outcome): (code: int)
    ensures code == 0 || code == 1
    ensures code == 0 <==> o.AlertsOff? || o.Delivered?
  {
    match o
    case AlertsOff => 0
    case Delivered(_) => 0
    case _ => 1
  }

  /** The transport calls a run made. */
  function Transcript(o: Outcome): (steps: seq<Step>)
    ensures !(o.Delivered? || o.Undelivered?) ==> steps == []
  {
    match o
    case Delivered(report) => report.attempted
    case Undelivered(report) => report.attempted
    case _ => []
  }

  /** With fewer than two arguments the run fails with status 1 whatever the configuration, clock or server. */
  lemma ShortArgvIgnoresConfiguration(argv: seq<string>, file: ConfigFile, file': ConfigFile,
                                      context: Context, context': Context,
                                      accepts: Step -> bool, accepts': Step -> bool)
    requires |argv| < 3
    ensures Main(argv, file, context, accepts) == Main(argv, file', context', accepts')
    ensures ExitCode(Main(argv, file, context, accepts)) == 1
    ensures Transcript(Main(argv, file, context, accepts)) == []
  {
  }

  /**
   * A missing file, a missing `email_alerts` section, or a missing or falsy `enabled` all skip the alert:
   * status 0 and no transport call.
   */
  lemma DisabledSkipsDelivery(argv: seq<string>, file: ConfigFile, context: Context, accepts: Step -> bool)
    requires |argv| >= 3
    requires file.NoFile? ||
             (file.doc.Mapping? &&
              (file.doc.emailAlerts.None? ||
               (file.doc.emailAlerts.value.Section? && !IsEnabled(file.doc.emailAlerts.value.section))))
    ensures Main(argv, file, context, accepts) == AlertsOff
    ensures ExitCode(Main(argv, file, context, accepts)) == 0
    ensures Transcript(Main(argv, file, context, accepts)) == []
  {
  }

  /** An empty file or a null `email_alerts` section crashes `load_config`: status 1 and no transport call. */
  lemma MalformedConfigurationCrashes(argv: seq<string>, file: ConfigFile, context: Context, accepts: Step -> bool)
    requires |argv| >= 3
    requires file.File? && (file.doc.NoDocument? || file.doc.emailAlerts == Some(NullSection))
    ensures Main(argv, file, context, accepts).Crashed?
    ensures ExitCode(Main(argv, file, context, accepts)) == 1
    ensures Transcript(Main(argv, file, context, accepts)) == []
  {
  }

  /**
   * Once alerting is enabled, the run exits 0 exactly when every configuration key the delivery needs is
   * present and the server accepts every planned call, the final quit included.
   */
  lemma ExitZeroIffEveryStepSucceeds(argv: seq<string>, file: ConfigFile, context: Context, accepts: Step -> bool)
    requires |argv| >= 3 && LoadConfig(file).Enabled?
    ensures var planned := Planned(LoadConfig(file).section, argv[1], argv[2], context);
      ExitCode(Main(argv, file, context, accepts)) == 0 <==>
      planned.Success? && forall i :: 0 <= i < |planned.value| ==> accepts(planned.value[i])
    ensures var planned := Planned(LoadConfig(file).section, argv[1], argv[2], context);
      planned.Failure? ==> Transcript(Main(argv, file, context, accepts)) == []
  {
  }

  /** A server that refuses only the final quit still makes the run fail, after the message was handed over. */
  lemma {:induction false} QuitRefusalFails(argv: seq<string>, file: ConfigFile, context: Context, accepts: Step -> bool)
    requires |argv| >= 3 && LoadConfig(file).Enabled?
    requires Planned(LoadConfig(file).section, argv[1], argv[2], context).Success?
    requires !accepts(Quit)
    requires forall step :: step != Quit ==> accepts(step)
    ensures var steps := Planned(LoadConfig(file).section, argv[1], argv[2], context).value;
      Transcript(Main(argv, file, context, accepts)) == steps &&
      Main(argv, file, context, accepts) == Undelivered(Report(steps, NotSent(Rejected(Quit)))) &&
      ExitCode(Main(argv, file, context, accepts)) == 1
  {
    var section := LoadConfig(file).section;
    var steps := Planned(section, argv[1], argv[2], context).value;
    var msg := BuildMessage(section, argv[1], argv[2], context).value;
    var d := Deliver(steps, accepts);
    DeliverOutcome(steps, accepts);
    assert steps[|steps| - 1] == Quit;
    assert !d.completed;
    forall i | 0 <= i < |steps| - 1 ensures accepts(steps[i]) {
      PlanStepsBeforeQuit(section.smtp, msg, i);
    }
    assert |d.attempted| == |steps|;
  }

  /** Every planned call but the last is something other than quit. */
  lemma {:induction false} PlanStepsBeforeQuit(smtp: Option<SmtpSection>, msg: Message, i: nat)
    requires Plan(smtp, msg).Success? && i < |Plan(smtp, msg).value| - 1
    ensures Plan(smtp, msg).value[i] != Quit
  {
    var s := smtp.value;
    var steps := Plan(smtp, msg).value;
    var secure := if UseTls(s) then [StartTls] else [];
    var login := if HasCredentials(s) then [Login(s.username.value, s.password.value)] else [];
    assert steps == [Connect(s.server.value, Port(s))] + secure + login + [SendMessage(msg), Quit];
  }
}
