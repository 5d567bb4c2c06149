# send-alert.py, modelled in Dafny

`send-alert.py` sends an email when a MikroTik backup fails. It is called as
`send-alert.py <subject> <body>`. It reads the `email_alerts` section of the `config.yml` file next to it.
When alerting is enabled, it builds a plain-text message: a From header, a To header joining the
recipients with `", "`, and a Subject header made of the prefix, one space and the subject. The body is a
fixed template around the caller's text. It then connects to the SMTP server, issues STARTTLS when TLS is
on, logs in when both credentials are given, sends the message and quits. The exit status is 0 when
alerting is off or the alert went out, and 1 otherwise.

The model has seven modules:

- `Wrappers`: `Option` and `Result`.
- `Text`: Python's `sep.join` and `s.split(c)` with round-trip lemmas.
- `Yaml`: the scalar values the configuration holds, Python's truth test and `str()` on them.
- `Config`: the parsed configuration and `load_config`, including the two inputs that make it raise.
- `Mail`: the headers and the body template.
- `Smtp`: the ordered list of transport calls a configuration calls for, the session order they follow, and
  running them against a server that may refuse any call.
- `SendAlert`: `send_email` as a specification function (`Attempt`) and as a step-by-step method
  (`SendEmail`, proved equal to running the plan). Both are stated in terms of running the same plan,
  `Smtp.Deliver`, so the method makes exactly the calls and gives exactly the verdict that `Attempt`
  describes. `main` is a function from arguments, configuration,
  clock, host name and server behaviour to an outcome and an exit status.

The SMTP server is a parameter `accepts: Step -> bool` saying which calls succeed. The clock and host name
are a `Context` parameter. The configuration file is given as the value the filesystem and the YAML loader
would produce.

Where the documented behaviour and the code differ, the model follows the code:

- A missing configuration file makes `load_config` return `None`, so the run exits 0, not 1 (send-alert.py:26-28, 110-113).
- `quit()` is called only after a successful `send_message()`. When an earlier call raises, the
  connection is not closed by the script (send-alert.py:86-95).
- The argument check is `len(sys.argv) < 3`, so extra arguments are accepted and ignored (send-alert.py:100).
- An empty configuration file, or an `email_alerts:` key with no value, makes `load_config` raise outside
  any handler. The process then ends with Python's status 1 for an uncaught exception (send-alert.py:31-38).

## Model

| member | source | states |
|---|---|---|
| Yaml.Truthy | send-alert.py:76-83 | Python's truth test on a scalar: `None`, `False`, `0` and `""` are false, everything else is true. Used by `Config.IsEnabled`, `Smtp.UseTls` and `Smtp.HasCredentials`; its consequences are stated by `Config.LoadConfig` and `Smtp.Plan`. |
| Yaml.Render | send-alert.py:51 | Python's `str()` on a scalar (`None`, `True`/`False`, the decimal text of an integer, a string unchanged); stated through `Yaml.Decimal` and `Mail.Subject`. |
| Yaml.Digits | send-alert.py:51 | The decimal text of a natural number is non-empty, all digits, and has no leading zero. |
| Yaml.Decimal | send-alert.py:51 | `str()` of an integer starts with a minus sign exactly when the integer is negative. After the sign come only digits, with no leading zero, and they denote the integer's magnitude. |
| Yaml.DigitsRoundTrip | send-alert.py:51 | Reading the digits back gives the number, so the text is the number's decimal form. |
| Config.IsEnabled | send-alert.py:38 | `get('enabled', False)` is truthy. Its role in `load_config` is stated by `Config.LoadConfig`. |
| Config.LoadConfig | send-alert.py:22-41 | A missing file means alerting is off. The section is returned exactly when it is present, is a mapping and `enabled` is truthy. A missing section or a falsy or missing `enabled` turns alerting off. An empty document raises TypeError and a null section raises AttributeError; among the modelled documents nothing else raises. |
| Text.Join | send-alert.py:50 | `sep.join(parts)`: the parts in order with `sep` between neighbours, as `Mail.ToHeaderOrder` states for the To header. |
| Mail.ToHeader | send-alert.py:50 | The To header, the recipients joined by `", "`; its content and order are stated by `Mail.ToHeaderOrder`. |
| Mail.PrefixText | send-alert.py:51 | `str()` of `subject_prefix`, or the default `[MikroTik Backup]` when absent; stated by `Mail.Subject`. |
| Mail.FullBody | send-alert.py:57-68 | The body template; its lines are stated by `Mail.BodyLines` and the caller's text standing verbatim by `Mail.BodyVerbatim`. |
| Mail.Repeat | send-alert.py:59 | `c * n` has length `n` and every character is `c`. |
| Mail.Rule | send-alert.py:57-68 | The rule is exactly 70 `=` characters. |
| Mail.Subject | send-alert.py:51 | The subject header is the prefix text (the default `[MikroTik Backup]` when absent, `str()` of the value otherwise), one space, then the caller's subject unchanged. |
| Mail.ToHeaderOrder | send-alert.py:50 | The To header holds every recipient in list order. Each recipient but the last is followed by exactly `", "`, and the last ends the header. |
| Mail.FixedTextsUnbroken | send-alert.py:57-68 | The banner, the disclaimer, the rule and the Time/Host labels contain no line break. |
| Mail.FixedLinesUnbroken | send-alert.py:57-68 | No fixed line of the template contains a line break, provided the timestamp and host name contain none. |
| Mail.BodyVerbatim | send-alert.py:57-68 | The caller's text stands verbatim in the body, between the joined head and tail lines. |
| Mail.BodyLines | send-alert.py:57-68 | Split into lines, the body is the fixed head (leading empty line, banner, rule, empty line, time, host, empty line), then the caller's own lines unchanged, then the fixed tail (empty line, rule, disclaimer, empty rest after the final line break). |
| Mail.BuildMessage | send-alert.py:48-68 | A missing `from` fails with that key. Else a missing `to` fails with that key. Otherwise the message carries the sender, the joined To header, the subject header and the templated body. |
| Text.JoinSplit | send-alert.py:57-68 | Joining the fields of a split with the separator gives the string back. |
| Text.SplitJoin | send-alert.py:57-68 | Splitting a join of separator-free parts gives the parts back. |
| Smtp.UseTls | send-alert.py:76 | `get('use_tls', True)` is truthy; stated by `Smtp.Plan` (STARTTLS exactly when it holds). |
| Smtp.Port | send-alert.py:76-80 | The configured port, else 587 with TLS and 25 without; stated by `Smtp.Plan`. |
| Smtp.HasCredentials | send-alert.py:83 | Both `username` and `password` are truthy; stated by `Smtp.Plan` (login exactly when it holds). |
| Smtp.Handshake | send-alert.py:76-84 | Connect, STARTTLS when TLS is on, login when both credentials are truthy; stated by `Smtp.Plan` and `SendAlert.OpenSession`. |
| Smtp.Plan | send-alert.py:74-88 | A missing `smtp` then a missing `server` fail before any call. Otherwise the calls are connect, STARTTLS exactly when `use_tls` is truthy (default true), login exactly when both credentials are truthy, send, quit. The port is the configured one, else 587 with TLS and 25 without. |
| Smtp.PlanFollowsSession | send-alert.py:76-88 | Every plan is a complete session in order (connect, optional upgrade, optional login, one send, quit). Login happens on a connection upgraded exactly when TLS is on. The message is submitted upgraded as configured and authenticated exactly when credentials are given. |
| Smtp.Deliver | send-alert.py:46-95 | Running the calls in order until the first refusal, which the handler catches; stated by `Smtp.DeliverOutcome`, `Smtp.DeliverAppend`, `Smtp.DeliverPlan` and `Smtp.DeliverClosing`. |
| Smtp.DeliverOutcome | send-alert.py:77-95 | Calls run in order stop at the first refusal. The calls made are a prefix of the plan. The run completes exactly when every call is accepted, and then every call was made. Otherwise the last call made is the refused one and all earlier ones were accepted. |
| Smtp.DeliverPlan | send-alert.py:76-88 | Running a plan runs the handshake first. The send and the quit are attempted only when every handshake call was accepted, and then they follow the whole handshake. |
| Smtp.DeliverClosing | send-alert.py:86-88 | A refused send stops the run before quit. Otherwise both calls are made, and the run completes exactly when quit is accepted. |
| Smtp.DeliverAppend | send-alert.py:77-88 | Running two call lists back to back runs the second only when the first completes. |
| SendAlert.SuccessNotice | send-alert.py:90 | The success line names the recipients with the same joined string as the To header. |
| SendAlert.Planned | send-alert.py:49-77 | Missing keys are reported in the order the code reads them: `from`, `to`, `smtp`, `server`. Otherwise the plan is that of the built message. |
| SendAlert.Attempt | send-alert.py:44-95 | A missing key fails before any call. Otherwise the calls made are a prefix of the plan. The attempt succeeds exactly when the server accepts every call, quit included, and then made every call. A failure names the refused call, which is the last one made, and every call before it was accepted: the attempt stops at the first refusal. |
| SendAlert.Call | send-alert.py:77-88 | One call on the client: it is recorded as made, and it succeeds exactly when the server accepts it. |
| SendAlert.OpenSession | send-alert.py:76-84 | Connecting, upgrading and logging in step by step makes the same calls, with the same verdict, as running the handshake part of the plan. |
| SendAlert.Transmit | send-alert.py:76-91 | Opening the session, sending and quitting step by step makes the same calls, with the same verdict, as running the plan. |
| SendAlert.SendEmail | send-alert.py:44-95 | With a key missing nothing is sent and no call is made. Otherwise the verdict and the calls made are those of running the plan. |
| SendAlert.QuitRefusalFails | send-alert.py:86-119 | If the server refuses only the final quit, every planned call is made, the attempt fails on quit and the run exits 1, although the message was handed over. |
| SendAlert.PlanStepsBeforeQuit | send-alert.py:77-88 | Quit is only the last planned call. |
| SendAlert.Main | send-alert.py:98-119 | Fewer than two arguments end in the usage error whatever else holds. Otherwise the run crashes, skips or attempts delivery exactly as `load_config` raises, returns `None` or returns the section. The attempt uses the first two arguments as subject and body. |
| SendAlert.ExitCode | send-alert.py:100-119 | The status is 0 exactly when alerting is off or the alert went out, and 1 otherwise. |
| SendAlert.Transcript | send-alert.py:98-119 | A run that does not attempt delivery makes no transport call. |
| SendAlert.ShortArgvIgnoresConfiguration | send-alert.py:100-102 | With fewer than two arguments the outcome does not depend on the file, clock or server. The status is 1 and no call is made. |
| SendAlert.DisabledSkipsDelivery | send-alert.py:26-113 | A missing file, a missing section or a missing or falsy `enabled` gives status 0 with no call. |
| SendAlert.MalformedConfigurationCrashes | send-alert.py:30-38 | An empty file or a null section crashes with status 1 and no call. |
| SendAlert.ExitZeroIffEveryStepSucceeds | send-alert.py:44-119 | With alerting enabled, the status is 0 exactly when every key is present and the server accepts every planned call. A missing key means no call is made. |

## Left out

- YAML parsing: the loader's result is an input. Only the document and section shapes below are modelled.
  - The document is either empty (`NoDocument`) or a mapping (`Mapping`). Other documents are not modelled. A list without the item `email_alerts`, or a string that does not contain `email_alerts`, passes the check at send-alert.py:34-35, so `load_config` returns `None` and the run exits 0. A number or a boolean makes that check raise TypeError, which nothing catches, so the run exits 1. A list that does contain the item `email_alerts` passes that check, and then `config['email_alerts']` at send-alert.py:37 raises TypeError, which nothing catches, so the run exits 1.
  - The `email_alerts` value is either null (`NullSection`) or a mapping (`Section`). Other values are not modelled. A scalar or a list makes `.get` at send-alert.py:38 raise AttributeError, which nothing catches, so the run exits 1.
- `enabled`, `use_tls`, `username`, `password` and `subject_prefix` are scalars (null, boolean, integer or string). A list or mapping there is not modelled. `enabled` is only truth-tested, so such a value raises nothing. Floats are not modelled.
- The keys `send_email` reads have fixed shapes: strings for `from` and `server`, a list of strings for `to`, an integer for `port`, and a mapping for `smtp`. A null `smtp` value is not modelled, and neither are other shapes. Those keys are read inside `send_email`'s handler, so a wrong shape there raises inside the handler and the run exits 1. A wrong shape can also format differently instead of raising.
- Reading and parsing the file (send-alert.py:30-31) is not modelled. When the file cannot be opened or is not valid YAML, `open()` or `yaml.safe_load` raises, nothing catches it, and the run exits 1. `ConfigFile` has no value for these cases.
- The PyYAML import guard (send-alert.py:15-19) is not modelled; it is an environment check.
- The location of the configuration file (send-alert.py:24) is not modelled: the file is a parameter.
- The clock and `socket.gethostname()` (send-alert.py:54-55) are a parameter with the formatted timestamp and the host name.
- MIME encoding (send-alert.py:48, 71) is not modelled: the message is its headers and its plain-text body, not the multipart byte stream.
- `smtplib` and the network are not modelled. The server is a parameter saying which calls succeed, and every failure is a refused call. Timeouts, partial sends and the text of an exception's message are not modelled.
- The console output of the error paths (send-alert.py:18, 27, 94, 101) and the skip notice (send-alert.py:112) is not modelled. The success line (send-alert.py:90) is modelled.
- `sys.exit` is modelled as the exit status of the outcome.
- SendAlert.Transcript: states only that runs without a delivery attempt make no call; the calls of an attempt are stated by SendAlert.Attempt.
