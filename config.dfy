/**
 * The parsed configuration file and `load_config`: whether alerting is enabled, and with which section.
 * YAML parsing itself is not modelled; the loader's result is the input.
 */
module Config {
  import opened Wrappers
  import opened Yaml

  /** The `smtp` mapping of the alerting section; every key may be missing. */
  datatype SmtpSection = SmtpSection(
    server: Option<string>,
    port: Option<int>,
    useTls: Option<Scalar>,
    username: Option<Scalar>,
    password: Option<Scalar>)

  /** The `email_alerts` mapping; every key may be missing. `sender` is the `from` key, `recipients` the `to` list. */
  datatype AlertSection = AlertSection(
    enabled: Option<Scalar>,
    sender: Option<string>,
    recipients: Option<seq<string>>,
    subjectPrefix: Option<Scalar>,
    smtp: Option<SmtpSection>)

  /** The value of the `email_alerts` key: a mapping, or `null` when the key is written with nothing after it. */
  datatype SectionValue = NullSection | Section(section: AlertSection)

  /**
   * What the YAML loader returns: `None` for a file with no document in it, otherwise the
   * top-level mapping, of which only `email_alerts` is read.
   */
  datatype Document = NoDocument | Mapping(emailAlerts: Option<SectionValue>)

  /** The configuration file next to the script: absent, or present with its parsed document. */
  datatype ConfigFile = NoFile | File(doc: Document)

  /** The exceptions `load_config` can raise, neither of which it catches. */
  datatype LoadError =
    | NotAMapping      // `'email_alerts' not in None` raises TypeError
    | SectionIsNull    // `None.get('enabled', False)` raises AttributeError

  /** What `load_config` does: returns `None` (alerting off), returns the section, or raises. */
  datatype Loaded = Disabled | Enabled(section: AlertSection) | Raised(error: LoadError)

  /** `email_config.get('enabled', False)` is truthy. */
  predicate IsEnabled(section: AlertSection) {
    Truthy(section.enabled.GetOr(Bool(false)))
  }

  /** `load_config`, given what the filesystem and the YAML loader would have produced. */
  function LoadConfig(file: ConfigFile): (r: Loaded)
    // A missing file is reported and treated as "alerting off", not as an error.
    ensures file.NoFile? ==> r == Disabled
    // The section is returned exactly when it is present, is a mapping, and is enabled.
    ensures r.Enabled? <==>
              file.File? && file.doc.Mapping? && file.doc.emailAlerts.Some? &&
              file.doc.emailAlerts.value.Section? && IsEnabled(file.doc.emailAlerts.value.section)
    ensures r.Enabled? ==> file.doc.emailAlerts == Some(Section(r.section))
    // A missing section or a falsy (or missing) `enabled` switches alerting off.
    ensures file.File? && file.doc.Mapping? ==>
              (file.doc.emailAlerts.None? ==> r == Disabled) &&
              ((file.doc.emailAlerts.Some? && file.doc.emailAlerts.value.Section? &&
                !IsEnabled(file.doc.emailAlerts.value.section)) ==> r == Disabled)
    // The two shapes that make the lookups themselves fail.
    ensures r.Raised? <==> file.File? && (file.doc.NoDocument? || file.doc.emailAlerts == Some(NullSection))
    ensures r.Raised? ==> (r.error == NotAMapping <==> file.doc.NoDocument?)
  {
    match file
    case NoFile => Disabled
    case File(doc) =>
      match doc
      case NoDocument => Raised(NotAMapping)
      case Mapping(alerts) =>
        match alerts
        case None => Disabled
        case Some(NullSection) => Raised(SectionIsNull)
        case Some(Section(section)) => if IsEnabled(section) then Enabled(section) else Disabled
  }
}
