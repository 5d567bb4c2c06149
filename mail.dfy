/** The message `send_email` builds: its From, To and Subject headers and its plain-text body. */
module Mail {
  import opened Wrappers
  import opened Yaml
  import opened Text
  import opened Config

  /** What the clock and the host name would have produced: `datetime.now()` formatted, and `socket.gethostname()`. */
  datatype Context = Context(timestamp: string, hostname: string)

  /** The headers and the body of the alert. `to` is the display header, not the recipient list. */
  datatype Message = Message(sender: string, to: string, subject: string, text: string)

  const DefaultPrefix: string := "[MikroTik Backup]"
  const Banner: string := "MikroTik Backup Alert"
  /** The closing line of the body: one sentence, spelled as three adjoining literals. */
  const Disclaimer: string := "This is an automated " + "message from the " + "MikroTik backup system."
  const RecipientSeparator: string := ", "

  /** `c * n` in Python: `n` copies of `c`. */
  function Repeat(c: char, n: nat): (r: string)
    ensures |r| == n
    ensures forall k :: 0 <= k < |r| ==> r[k] == c
  {
    seq(n, _ => c)
  }

  /** The horizontal rule above and below the caller's text: `'=' * 70`. */
  function Rule(): (r: string)
    ensures |r| == 70 && forall k :: 0 <= k < 70 ==> r[k] == '='
  {
    Repeat('=', 70)
  }

  /** The subject prefix as it appears in the header: `str()` of `subject_prefix`, or the default when absent. */
  function PrefixText(prefix: Option<Scalar>): string {
    Render(prefix.GetOr(Str(DefaultPrefix)))
  }

  /** The Subject header: the prefix, exactly one space, then the caller's subject unchanged. */
  function Subject(prefix: Option<Scalar>, subject: string): (r: string)
    ensures |r| == |PrefixText(prefix)| + 1 + |subject|
    ensures r[..|PrefixText(prefix)|] == PrefixText(prefix)
    ensures r[|PrefixText(prefix)|] == ' '
    ensures r[|PrefixText(prefix)| + 1..] == subject
    ensures prefix.None? ==> r == "[MikroTik Backup] " + subject
    ensures prefix.Some? && prefix.value.Str? ==> r == prefix.value.s + " " + subject
  {
    PrefixText(prefix) + " " + subject
  }

  /** The To header: the recipients joined with `", "`. */
  function ToHeader(recipients: seq<string>): string {
    Join(recipients, RecipientSeparator)
  }

  /** The To header holds every recipient, in the list's order, each but the last followed by `", "`. */
  lemma ToHeaderOrder(recipients: seq<string>, i: nat)
    requires i < |recipients|
    ensures var h, o := ToHeader(recipients), Offset(recipients, RecipientSeparator, i);
      o + |recipients[i]| <= |h| && h[o..o + |recipients[i]|] == recipients[i] &&
      (i == 0 ==> o == 0) &&
      (i + 1 < |recipients| ==>
         Offset(recipients, RecipientSeparator, i + 1) == o + |recipients[i]| + 2 <= |h| &&
         h[o + |recipients[i]|..o + |recipients[i]| + 2] == ", ") &&
      (i + 1 == |recipients| ==> o + |recipients[i]| == |h|)
  {
    JoinPartAt(recipients, RecipientSeparator, i);
    if i + 1 < |recipients| {
      JoinSeparatorAfter(recipients, RecipientSeparator, i);
    } else {
      JoinLastPartEnds(recipients, RecipientSeparator);
    }
  }

  /** The lines of the body before the caller's text. */
  function HeadLines(timestamp: string, hostname: string): seq<string> {
    ["", Banner, Rule(), "", "Time: " + timestamp, "Host: " + hostname, ""]
  }

  /** The lines of the body after the caller's text; the last one is the empty rest after the final line break. */
  function TailLines(): seq<string> {
    ["", Rule(), Disclaimer, ""]
  }

  /**
   * The plain-text body, line by line as the triple-quoted template lays it out: a leading line break, the
   * banner, the rule, an empty line, the time and host lines, an empty line, the caller's text, an empty line,
   * the rule, the disclaimer and a final line break.
   */
  function FullBody(timestamp: string, hostname: string, body: string): string {
    Join(HeadLines(timestamp, hostname) + [body] + TailLines(), "\n")
  }

  /** None of the fixed texts contains a line break. */
  lemma FixedTextsUnbroken()
    ensures '\n' !in Banner && '\n' !in Disclaimer && '\n' !in Rule()
    ensures '\n' !in "Time: " && '\n' !in "Host: "
  {
  }

  /** No line of the fixed head or tail contains a line break. */
  lemma FixedLinesUnbroken(timestamp: string, hostname: string)
    requires '\n' !in timestamp && '\n' !in hostname
    ensures forall i :: 0 <= i < |HeadLines(timestamp, hostname)| ==> '\n' !in HeadLines(timestamp, hostname)[i]
    ensures forall i :: 0 <= i < |TailLines()| ==> '\n' !in TailLines()[i]
  {
    FixedTextsUnbroken();
  }

  /** The caller's text stands verbatim in the body, between the joined head and the joined tail. */
  lemma BodyVerbatim(timestamp: string, hostname: string, body: string)
    ensures FullBody(timestamp, hostname, body) ==
            Join(HeadLines(timestamp, hostname), "\n") + "\n" + body + "\n" + Join(TailLines(), "\n")
  {
    JoinAround(HeadLines(timestamp, hostname), body, TailLines(), "\n");
  }

  /**
   * Split into lines, the body is the fixed head (an empty line, the banner, a rule of 70 `=`, an empty line,
   * the time line, the host line, an empty line), the caller's lines unchanged, then the fixed tail (an empty
   * line, the rule, the disclaimer, and the empty field after the final newline).
   */
  lemma BodyLines(timestamp: string, hostname: string, body: string)
    requires '\n' !in timestamp && '\n' !in hostname
    ensures Split(FullBody(timestamp, hostname, body), '\n') ==
            HeadLines(timestamp, hostname) + Split(body, '\n') + TailLines()
  {
    FixedLinesUnbroken(timestamp, hostname);
    SplitJoinAround(HeadLines(timestamp, hostname), body, TailLines(), '\n');
  }

  /**
   * The message part of `send_email`: reading `from` and then `to` raises KeyError when the key is
   * missing, and the error names that key; otherwise the headers and body are filled in.
   */
  function BuildMessage(section: AlertSection, subject: string, body: string, context: Context): (r: Result<Message, string>)
    ensures r.Success? <==> section.sender.Some? && section.recipients.Some?
    ensures section.sender.None? ==> r == Failure("from")
    ensures section.sender.Some? && section.recipients.None? ==> r == Failure("to")
    ensures r.Success? ==>
              r.value.sender == section.sender.value &&
              r.value.to == ToHeader(section.recipients.value) &&
              r.value.subject == Subject(section.subjectPrefix, subject) &&
              r.value.text == FullBody(context.timestamp, context.hostname, body)
  {
    match section.sender
    case None => Failure("from")
    case Some(sender) =>
      match section.recipients
      case None => Failure("to")
      case Some(recipients) =>
        Success(Message(sender, ToHeader(recipients), Subject(section.subjectPrefix, subject),
                        FullBody(context.timestamp, context.hostname, body)))
  }
}
