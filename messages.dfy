/** The one-line message path: the text "[module][severity] message" and the
    colour rule of the logger's message serializer. */
module Messages {
  import opened Wrappers
  import opened Models

  /** The text of a one-line message. */
  function MessageText(moduleName: string, severity: Severity, message: string): string
  {
    "[" + moduleName + "][" + SeverityName(severity) + "] " + message
  }

  /** What precedes the severity in a message of this module. */
  function Head(moduleName: string): string
  {
    "[" + moduleName + "]["
  }

  /** What follows the severity name, up to the message. */
  function Tag(severity: Severity): string
  {
    SeverityName(severity) + "] "
  }

  predicate StartsWith(s: string, prefix: string)
  {
    |prefix| <= |s| && s[..|prefix|] == prefix
  }

  /** Reading a message text back, knowing the module it came from: the
      severity and the message, or None if the text is not of that shape. */
  function ParseMessageText(moduleName: string, text: string): Option<(Severity, string)>
  {
    var head := Head(moduleName);
    if !StartsWith(text, head) then None
    else
      var rest := text[|head|..];
      if StartsWith(rest, Tag(Info)) then Some((Info, rest[|Tag(Info)|..]))
      else if StartsWith(rest, Tag(Warn)) then Some((Warn, rest[|Tag(Warn)|..]))
      else if StartsWith(rest, Tag(Error)) then Some((Error, rest[|Tag(Error)|..]))
      else None
  }

  lemma MessageTextSplits(moduleName: string, severity: Severity, message: string)
    ensures MessageText(moduleName, severity, message) == Head(moduleName) + (Tag(severity) + message)
  {
  }

  /** A rest that starts with one severity's tag starts with no other's. */
  lemma TagsExclusive(rest: string, s: Severity, t: Severity)
    requires StartsWith(rest, Tag(s)) && StartsWith(rest, Tag(t))
    ensures s == t
  {
    assert rest[0] == Tag(s)[0] == Tag(t)[0];
    assert Tag(s)[0] == SeverityName(s)[0];
    assert Tag(t)[0] == SeverityName(t)[0];
  }

  /** Round trip: a message text reads back as the severity and message it
      was built from. */
  lemma ParseMessageTextRoundTrip(moduleName: string, severity: Severity, message: string)
    ensures ParseMessageText(moduleName, MessageText(moduleName, severity, message)) == Some((severity, message))
  {
    var text := MessageText(moduleName, severity, message);
    var head := Head(moduleName);
    var rest := Tag(severity) + message;
    MessageTextSplits(moduleName, severity, message);
    assert text[..|head|] == head;
    assert text[|head|..] == rest;
    assert rest[..|Tag(severity)|] == Tag(severity);
    assert rest[|Tag(severity)|..] == message;
    forall t: Severity | StartsWith(rest, Tag(t))
      ensures t == severity
    {
      TagsExclusive(rest, t, severity);
    }
  }

  /** And the other way: whatever reads back as a severity and a message is
      exactly the text built from them. */
  lemma ParseMessageTextSound(moduleName: string, text: string, severity: Severity, message: string)
    requires ParseMessageText(moduleName, text) == Some((severity, message))
    ensures MessageText(moduleName, severity, message) == text
  {
    var head := Head(moduleName);
    var rest := text[|head|..];
    assert text == head + rest;
    assert rest == Tag(severity) + rest[|Tag(severity)|..];
  }

  /** Within one module, distinct (severity, message) pairs give distinct
      texts. */
  lemma MessageTextInjective(moduleName: string, s: Severity, x: string, t: Severity, y: string)
    requires MessageText(moduleName, s, x) == MessageText(moduleName, t, y)
    ensures s == t && x == y
  {
    ParseMessageTextRoundTrip(moduleName, s, x);
    ParseMessageTextRoundTrip(moduleName, t, y);
  }

  /** The colour of a one-line message. An explicit non-empty colour, or any
      colour when automatic colouring is off, is kept as given (null and ""
      included); otherwise the severity's default colour is used. */
  function MessageColor(defaults: DefaultColors, automaticallySetColor: bool,
                        severity: Severity, color: Option<string>): (r: Option<string>)
    ensures !IsNullOrEmpty(color) ==> r == color
    ensures !automaticallySetColor ==> r == color
    ensures IsNullOrEmpty(color) && automaticallySetColor ==> r == Some(DefaultColor(defaults, severity))
  {
    if IsNullOrEmpty(color) && automaticallySetColor then Some(DefaultColor(defaults, severity))
    else color
  }

  /** The record the message serializer produces for one call. */
  function GetSerializedMessage(moduleName: string, config: LoggerConfiguration, defaults: DefaultColors,
                                severity: Severity, message: string, color: Option<string>): (r: TeamsMessage)
    ensures r.text == MessageText(moduleName, severity, message)
    ensures ParseMessageText(moduleName, r.text) == Some((severity, message))
    ensures r.themeColor == MessageColor(defaults, config.automaticallySetColor, severity, color)
  {
    ParseMessageTextRoundTrip(moduleName, severity, message);
    TeamsMessage(MessageText(moduleName, severity, message),
                 MessageColor(defaults, config.automaticallySetColor, severity, color))
  }

  /** With distinct defaults, an automatically coloured message's colour
      names its severity: a reader of the posted message can tell Info,
      Warn and Error apart by colour alone. */
  lemma AutomaticMessageColorNamesSeverity(defaults: DefaultColors, severity: Severity, other: Severity,
                                           color: Option<string>)
    requires defaults.Distinct() && IsNullOrEmpty(color)
    requires MessageColor(defaults, true, severity, color) == Some(DefaultColor(defaults, other))
    ensures severity == other
  {
  }
}
