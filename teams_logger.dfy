/** The logger: a running card built one call at a time, and one-line
    messages, both handed to an injected webhook client. */
module Logger {
  import opened Wrappers
  import opened Models
  import opened ConnectorCard
  import opened Messages
  import opened SeverityFlags

  /** What the webhook client is handed: the record a JSON string is
      serialized from. */
  datatype Payload = CardPayload(card: Card) | MessagePayload(message: TeamsMessage)

  /** The outcome of a call: it completes, or it dereferences a null card or
      a null current section and throws. */
  datatype Outcome = Completed | NullReference

  /** The webhook client, seen only through what it is handed: every posted
      payload is recorded, in order. */
  class WebhookSink {
    ghost var Posted: seq<Payload>

    constructor ()
      ensures Posted == []
    {
      Posted := [];
    }

    method Post(payload: Payload)
      modifies this
      ensures Posted == old(Posted) + [payload]
    {
      Posted := Posted + [payload];
    }
  }

  class TeamsLogger {
    const client: WebhookSink
    const config: LoggerConfiguration
    const defaults: DefaultColors
    const moduleName: string

    /** The running card; None until the first BeginRunningLog. */
    var card: Option<Card>
    /** The current section, as an index into the card's sections. */
    var cursor: Option<nat>
    var hasException: bool
    var hasWarning: bool

    /** The cursor is set exactly when the card has sections, and then
        designates the last one. */
    ghost predicate Valid()
      reads this
    {
      match card
      case None => cursor == None
      case Some(c) => cursor == if c.sections == [] then None else Some(|c.sections| - 1)
    }

    ghost function Flags(): Flags
      reads this
    {
      SeverityFlags.Flags(hasException, hasWarning)
    }

    constructor (client: WebhookSink, config: LoggerConfiguration, defaults: DefaultColors, moduleName: string)
      ensures Valid()
      ensures this.client == client && this.config == config
      ensures this.defaults == defaults && this.moduleName == moduleName
      ensures card == None && cursor == None
      ensures !hasException && !hasWarning
    {
      this.client := client;
      this.config := config;
      this.defaults := defaults;
      this.moduleName := moduleName;
      card := None;
      cursor := None;
      hasException := false;
      hasWarning := false;
    }

    /** Posts one one-line message; the card, the cursor and the flags are
        not touched. */
    method LogMessage(severity: Severity, message: string, color: Option<string>)
      modifies client
      ensures client.Posted == old(client.Posted) +
                [MessagePayload(GetSerializedMessage(moduleName, config, defaults, severity, message, color))]
      ensures unchanged(this)
    {
      var jsonMsg := GetSerializedMessage(moduleName, config, defaults, severity, message, color);
      client.Post(MessagePayload(jsonMsg));
    }

    /** Starts a fresh card from the module name, the title and the summary,
        and clears the cursor. The flags are left as they were. */
    method BeginRunningLog(title: string, summary: Option<string>)
      requires Valid()
      modifies this
      ensures Valid()
      ensures card == Some(NewCard(moduleName, title, summary)) && cursor == None
      ensures hasException == old(hasException) && hasWarning == old(hasWarning)
    {
      card := Some(NewCard(moduleName, title, summary));
      cursor := None;
    }

    /** Resolves the theme colour and posts the card. The automatic choice
        is made and then overwritten, so the card is posted with exactly the
        colour passed in. Without a card, the first assignment to its theme
        colour throws and nothing is posted. */
    method PostRunningLog(colorHexCode: Option<string>) returns (outcome: Outcome)
      requires Valid()
      modifies this, client
      ensures Valid()
      ensures cursor == old(cursor) && Flags() == old(Flags())
      ensures outcome == Completed <==> old(card).Some?
      ensures old(card).None? ==> card == None && client.Posted == old(client.Posted)
      ensures old(card).Some? ==>
                card == Some(PostedCardAsWritten(old(card).value, old(Flags()), config.automaticallySetColor,
                                                 defaults, colorHexCode))
      ensures old(card).Some? ==> card.value.themeColor == colorHexCode
      ensures old(card).Some? ==> client.Posted == old(client.Posted) + [CardPayload(card.value)]
    {
      if IsNullOrEmpty(colorHexCode) && config.automaticallySetColor {
        if hasException {
          if card.None? { return NullReference; }
          card := Some(card.value.(themeColor := Some(defaults.errorColor)));
        } else if hasWarning {
          if card.None? { return NullReference; }
          card := Some(card.value.(themeColor := Some(defaults.warningColor)));
        }
      }
      if card.None? { return NullReference; }
      card := Some(card.value.(themeColor := colorHexCode));

      var jsonPayload := CardPayload(card.value);
      client.Post(jsonPayload);
      outcome := Completed;
    }

    /** Raises the flags for the severity, then appends a new section with
        the given fields at the end of the card and makes it current. Without
        a card the flags are still raised, and the call then throws. */
    method AddNewSection(severity: Option<Severity>, title: Option<string>, text: Option<string>,
                         activityTitle: Option<string>, activitySubtitle: Option<string>,
                         activityText: Option<string>, markdown: Option<bool>)
      returns (outcome: Outcome)
      requires Valid()
      modifies this
      ensures Valid()
      ensures Flags() == Raise(old(Flags()), severity)
      ensures outcome == Completed <==> old(card).Some?
      ensures old(card).None? ==> card == None && cursor == None
      ensures old(card).Some? ==>
                card == Some(WithSection(old(card).value,
                                         NewSection(title, text, activityTitle, activitySubtitle, activityText, markdown)))
      ensures old(card).Some? ==> cursor == Some(|old(card).value.sections|)
    {
      if severity.Some? && severity.value == Error {
        hasException := true;
      }
      if severity.Some? && severity.value == Warn {
        hasWarning := true;
      }

      var section := NewSection(title, text, activityTitle, activitySubtitle, activityText, markdown);
      if card.None? { return NullReference; }
      card := Some(WithSection(card.value, section));

      cursor := Some(|card.value.sections| - 1);
      outcome := Completed;
    }

    /** Appends one open-link action to the current section. Without a
        current section the call throws and nothing changes. */
    method AddLink(linkButtonText: string, linkTargetUri: string) returns (outcome: Outcome)
      requires Valid()
      modifies this
      ensures Valid()
      ensures cursor == old(cursor) && Flags() == old(Flags())
      ensures outcome == Completed <==> old(cursor).Some?
      ensures old(cursor).None? ==> card == old(card)
      ensures old(cursor).Some? ==>
                var c := old(card).value;
                var i := old(cursor).value;
                i < |c.sections| &&
                card == Some(WithSectionAt(c, i, WithAction(c.sections[i], OpenUriLink(linkButtonText, linkTargetUri))))
    {
      var link := OpenUriLink(linkButtonText, linkTargetUri);

      if cursor.None? { return NullReference; }
      var i := cursor.value;
      var c := card.value;
      card := Some(WithSectionAt(c, i, WithAction(c.sections[i], link)));
      outcome := Completed;
    }

    /** Raises the flags for the severity, then appends the fact
        (severity name, log) to the current section. Without a current
        section the flags are still raised, and the call then throws. */
    method AddSubSectionActivityWithSeverity(severity: Severity, log: string) returns (outcome: Outcome)
      requires Valid()
      modifies this
      ensures Valid()
      ensures cursor == old(cursor) && Flags() == Raise(old(Flags()), Some(severity))
      ensures outcome == Completed <==> old(cursor).Some?
      ensures old(cursor).None? ==> card == old(card)
      ensures old(cursor).Some? ==>
                var c := old(card).value;
                var i := old(cursor).value;
                i < |c.sections| &&
                card == Some(WithSectionAt(c, i, WithFact(c.sections[i], Fact(SeverityName(severity), log))))
    {
      if severity == Error {
        hasException := true;
      }
      if severity == Warn {
        hasWarning := true;
      }

      var fact := Fact(SeverityName(severity), log);
      if cursor.None? { return NullReference; }
      var i := cursor.value;
      var c := card.value;
      card := Some(WithSectionAt(c, i, WithFact(c.sections[i], fact)));
      outcome := Completed;
    }
  }

  /** A caller's view: a run with an Error activity, posted with automatic
      colouring and no colour, goes out without a theme colour, and a
      one-line message afterwards leaves the card alone. */
  method RunningLogScenario(defaults: DefaultColors)
  {
    var sink := new WebhookSink();
    var logger := new TeamsLogger(sink, LoggerConfiguration(true), defaults, "Jobs");
    var o := logger.AddLink("Log", "http://logs");
    assert o == NullReference;
    logger.BeginRunningLog("Nightly", None);
    o := logger.AddNewSection(Some(Info), None, None, None, None, None, None);
    o := logger.AddSubSectionActivityWithSeverity(Error, "boom");
    assert logger.hasException && logger.cursor == Some(0);
    assert logger.card.value.sections[0].facts == [Fact("Error", "boom")];
    o := logger.PostRunningLog(None);
    assert o == Completed && |sink.Posted| == 1;
    assert sink.Posted[0].card.themeColor == None;
    var before := logger.card;
    logger.LogMessage(Warn, "late", None);
    assert logger.card == before && |sink.Posted| == 2;
    assert sink.Posted[1].message.themeColor == Some(defaults.warningColor);
  }
}
