# TeamsLogger card builder, modelled in Dafny

The TeamsLogger library posts log output to a Teams channel through an
incoming webhook. It has two paths:

- **One-line messages.** `LogMessage` posts a message whose text is
  `[module][severity] message`. Its colour is either the one given or, with
  automatic colouring, the default colour of the severity.
- **Running logs.** A connector card is built one call at a time and posted
  in one go. `BeginRunningLog` starts a card. `AddNewSection` appends a
  section and makes it the current one. `AddLink` and
  `AddSubSectionActivityWithSeverity` append open-link actions and facts to
  the current section. `PostRunningLog` sets the card's theme colour and
  posts the card. Section and activity calls also maintain two sticky
  severity flags, `hasException` and `hasWarning`.

The model consists of these modules:

- `Wrappers`: `Option` and `string.IsNullOrEmpty`.
- `Models`: severities, the configuration, the default colours and the message record.
- `ConnectorCard`: cards, sections, facts and actions as values, with the append operations on them.
- `Messages`: the one-line message text and colour, plus a parser proving the text round-trips.
- `SeverityFlags`: the flag rule, and how the theme colour is resolved at post time.
- `Logger`: the webhook sink and the `TeamsLogger` class.

The class keeps the source's mutable state as fields:

- the card, `None` until the first `BeginRunningLog`;
- the current section, as an index into the card's sections rather than an
  aliased reference;
- the two flags.

Each method states its whole new state. Its contract also keeps `Valid()`:
the cursor is set exactly when the card has sections, and then designates
the last one. Updates through the current section become a replacement of
`sections[cursor]`.

Where the code throws a `NullReferenceException`, the method returns
`NullReference` instead. The cases are: a section before any card, a link or
an activity with no current section, and a post before any card. The flag
updates that the source makes before the throw still happen.

Behaviour of the code worth stating plainly:

- `BeginRunningLog` does not reset the flags.
- `AddLink` and `AddSubSectionActivityWithSeverity` throw when no section
  is current.
- A Warn sets `hasWarning` even after an Error.
- `PostRunningLog` always posts the colour it is passed (see Findings).

## Model

| member | source | states |
|---|---|---|
| Logger.TeamsLogger.constructor | TeamsLogger/TeamsLogger.cs:22-29 | The logger keeps the client, configuration and module name it is given. There is no card and no current section, and both flags are false. |
| Logger.TeamsLogger.LogMessage | TeamsLogger/TeamsLogger.cs:37-41 | Exactly one payload is posted: the serialized one-line message. Nothing in the logger changes (no card, cursor or flag). |
| Logger.TeamsLogger.BeginRunningLog | TeamsLogger/TeamsLogger.cs:61-65 | The card becomes a fresh card built from the module name, title and summary, with no theme colour and no sections. The cursor is cleared and both flags keep their values. |
| Logger.TeamsLogger.PostRunningLog | TeamsLogger/TeamsLogger.cs:70-83 | With a card: the card's theme colour becomes exactly the argument, whatever the flags and configuration, and nothing else changes. Exactly one payload, the card, is posted. Without a card: it throws, posts nothing and changes nothing. The cursor and flags never change. |
| Logger.TeamsLogger.AddNewSection | TeamsLogger/TeamsLogger.cs:113-135 | The flags are raised for the severity. With a card: one section with the given fields is appended, with no facts or actions. Earlier sections are unchanged and the cursor designates the new last section. Without a card: it throws after raising the flags. |
| Logger.TeamsLogger.AddLink | TeamsLogger/TeamsLogger.cs:142-157 | With a current section: exactly that section gets one more action, an OpenUri link with the given label and one "default" target. Its facts, all other sections, the cursor and the flags are unchanged. Without one: it throws and nothing changes. |
| Logger.TeamsLogger.AddSubSectionActivityWithSeverity | TeamsLogger/TeamsLogger.cs:164-184 | The flags are raised for the severity. With a current section: the fact (severity name, log) is appended to that section's facts. Its actions, all other sections and the section count are unchanged. Without one: it throws after raising the flags. |
| Logger.WebhookSink.Post | TeamsLogger/TeamsWebhookClient.cs:7-11 | The client records each payload it is handed, in order. |
| Messages.GetSerializedMessage | TeamsLogger/TeamsLogger.cs:186-207 | The message text is "[" + module + "][" + severity name + "] " + message and reads back as that severity and message. The colour follows MessageColor. |
| Messages.MessageColor | TeamsLogger/TeamsLogger.cs:188-204 | A non-null, non-empty colour is kept as given. So is every colour when automatic colouring is off, null and "" included. Otherwise the colour is the Info, Warning or Error default for the severity. |
| Messages.ParseMessageTextRoundTrip | TeamsLogger/TeamsLogger.cs:205 | A message text parses back to the severity and message it was built from. |
| Messages.ParseMessageTextSound | TeamsLogger/TeamsLogger.cs:205 | Any text that parses to a severity and message is exactly the text built from them. |
| Messages.MessageTextInjective | TeamsLogger/TeamsLogger.cs:205 | Within one module, different (severity, message) pairs give different texts. |
| Messages.AutomaticMessageColorNamesSeverity | TeamsLogger/TeamsLogger.cs:188-204 | With distinct defaults, the colour of an automatically coloured message identifies its severity. |
| Models.SeverityNameInjective | TeamsLogger/TeamsLogger.cs:175 | Two severity names are equal exactly when the severities are equal, so a fact's name identifies its severity. |
| ConnectorCard.WithSection | TeamsLogger/TeamsLogger.cs:124-132 | The empty-list and non-empty-list branches both append the section at the end. Earlier sections and all other card fields are unchanged. |
| ConnectorCard.WithAction | TeamsLogger/TeamsLogger.cs:149-156 | Both branches append the action at the end of the section's actions. The facts and other fields are unchanged. |
| ConnectorCard.WithFact | TeamsLogger/TeamsLogger.cs:176-183 | Both branches append the fact at the end of the section's facts. The actions and other fields are unchanged. |
| ConnectorCard.WithSectionAt | TeamsLogger/TeamsLogger.cs:142-184 | Updating the current section in place through the aliased reference changes only that section. The section count and every other section are unchanged. |
| ConnectorCard.WithFactsInCallOrder | TeamsLogger/TeamsLogger.cs:176-183 | After a run of activity calls, the section's facts are the old facts followed by the new ones in call order. The actions are unchanged. |
| ConnectorCard.WithActionsInCallOrder | TeamsLogger/TeamsLogger.cs:149-156 | After a run of link calls, the section's actions are the old actions followed by the new ones in call order. The facts are unchanged. |
| SeverityFlags.Raise | TeamsLogger/TeamsLogger.cs:115-122 | An Error sets hasException and a Warn sets hasWarning. The two checks are independent, so a Warn after an Error still sets hasWarning. Info or a null severity changes neither flag, and no flag is ever cleared. |
| SeverityFlags.RaiseAllRecords | TeamsLogger/TeamsLogger.cs:166-173 | After any sequence of section or activity calls, each flag is set exactly when it was set before or some call carried its severity. So the flags are monotone and independent of call order. |
| SeverityFlags.PostedCardAsWritten | TeamsLogger/TeamsLogger.cs:72-79 | The statements of the post, in order, leave the card with the argument as its theme colour and nothing else changed. The automatic choice never survives. |
| SeverityFlags.ErrorColorLostAsWritten | TeamsLogger/TeamsLogger.cs:72-79 | In a concrete case (automatic colouring, an error recorded, no colour given), the card is posted with no colour instead of the error colour. |
| SeverityFlags.IntendedPostedCard | TeamsLogger/TeamsLogger.cs:72-78 | Intended resolution, with no colour given and automatic colouring on: the error colour if an error was recorded, else the warning colour if a warning was, else the previous colour. Otherwise the argument is used. Only the theme colour changes. |
| SeverityFlags.AsWrittenMatchesIntendedIff | TeamsLogger/TeamsLogger.cs:72-79 | The written and the intended post agree exactly when the automatic branch is not taken, or picks what the argument already was. |
| SeverityFlags.IntendedColorOfRun | TeamsLogger/TeamsLogger.cs:72-78 | Under the intended resolution, take a run from cleared flags. One Error call anywhere yields the error colour. Warn calls with no Error yield the warning colour. |

`Logger.RunningLogScenario` is a caller's walk through one running log, proved from the contracts above.

## Findings

| source | as written | input that shows it | evidently intended | confidence | as-written member | corrected member |
|---|---|---|---|---|---|---|
| TeamsLogger/TeamsLogger.cs:79 | `_card.ThemeColor = colorHexCode` runs unconditionally after the automatic choice at lines 72-78, so that choice is always overwritten. The severity flags never reach the payload. | `PostRunningLog(null)` with automatic colouring on, after an Error activity: the card is posted with theme colour null, not the error colour | the assignment on line 79 applies only when the automatic branch is not taken | high; not executed | SeverityFlags.ErrorColorLostAsWritten | SeverityFlags.IntendedPostedCard |

`TeamsLogger.PostRunningLog` keeps the as-written behaviour, because that is
what the program does. Its contract ties the posted card to
`PostedCardAsWritten`. The corrected resolution is stated and proved beside
it, in `IntendedPostedCard` and `IntendedColorOfRun`.
`AsWrittenMatchesIntendedIff` says exactly when the two differ.

## Left out

- HTTP transport (`TeamsWebhookClient`: request creation, headers, ASCII encoding, stream writes) is left out as I/O. The injected client is a sink that records each payload it is handed.
- JSON serialization is a foreign library. A payload is the record it would be serialized from (`Card` or `TeamsMessage`), not a string.
- `LogMessageAsync` and `PostRunningLogAsync` (TeamsLogger/TeamsLogger.cs:50-54, 88-101) do the same work as their synchronous versions, with an `await` on the client. They are not modelled separately, and asynchrony is not modelled.
- The default colour constants and the configuration class are not part of this model. The logger is given the three colours, and every property holds for any values of them. Only `AutomaticallySetColor` is represented.
- `ArgumentOutOfRangeException` at TeamsLogger/TeamsLogger.cs:202 is unreachable, because the severity type has exactly three values.
- The connector-card library types are reduced to the fields the logger sets. Lists start empty, and null-valued lists are not modelled. The two further null arguments of the section constructor (TeamsLogger/TeamsLogger.cs:124) and the card's library-side field mapping are not represented.
- Null strings other than the optional parameters (a null title, module name, log text or link) are not distinguished from ordinary strings.
- `ILogger` (TeamsLogger/ILogger.cs) is a set of declarations that the class does not implement. Its operations, including `CreateNewExceptionMessageCard`, have no implementation to model.
- The console program and the unit test call members that do not exist in the class, so they are not modelled.
