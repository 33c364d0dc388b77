/** The configuration and value types the logger takes from its `Models`
    namespace: severities, the logger configuration, the default colours and
    the one-line message record. */
module Models {
  import opened Wrappers

  /** `LogSeverity`; the logger only ever distinguishes these three. */
  datatype Severity = Info | Warn | Error

  /** `severity.ToString()`, which is also what string interpolation prints:
      the enum member's name. */
  function SeverityName(s: Severity): string
  {
    match s
    case Info => "Info"
    case Warn => "Warn"
    case Error => "Error"
  }

  /** No two severities print alike, so a fact's name or a message tag
      identifies its severity: a reader of a posted card can recover each
      activity's severity from the fact's name. */
  lemma SeverityNameInjective(s: Severity, t: Severity)
    ensures SeverityName(s) == SeverityName(t) <==> s == t
  {
  }

  /** `LoggerConfiguration`: the only setting the logger reads. */
  datatype LoggerConfiguration = LoggerConfiguration(automaticallySetColor: bool)

  /** The three `Defaults.*Color` constants. Their values are not part of this
      model, so the logger is given them and every property holds for any
      choice of them. */
  datatype DefaultColors = DefaultColors(infoColor: string, warningColor: string, errorColor: string)
  {
    predicate Distinct()
    {
      infoColor != warningColor && warningColor != errorColor && infoColor != errorColor
    }
  }

  /** The colour table a one-line message falls back on. */
  function DefaultColor(d: DefaultColors, s: Severity): string
  {
    match s
    case Info => d.infoColor
    case Warn => d.warningColor
    case Error => d.errorColor
  }

  /** `TeamsMessage`: the record a one-line message is serialized from. */
  datatype TeamsMessage = TeamsMessage(text: string, themeColor: Option<string>)
}
