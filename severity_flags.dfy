/** The two sticky severity flags the logger keeps for a running card, and
    how the theme colour is resolved from them when the card is posted. */
module SeverityFlags {
  import opened Wrappers
  import opened Models
  import opened ConnectorCard

  datatype Flags = Flags(hasException: bool, hasWarning: bool)

  /** The flag update of one section or activity call: an Error sets
      `hasException`, a Warn sets `hasWarning`, and nothing ever clears a
      flag. A null severity (only possible for a new section) changes neither.
      The two checks are independent, as in the source: a Warn sets the
      warning flag even after an Error. */
  function Raise(f: Flags, severity: Option<Severity>): (r: Flags)
    ensures r.hasException <==> f.hasException || severity == Some(Error)
    ensures r.hasWarning <==> f.hasWarning || severity == Some(Warn)
  {
    var f1 := if severity.Some? && severity.value == Error then f.(hasException := true) else f;
    if severity.Some? && severity.value == Warn then f1.(hasWarning := true) else f1
  }

  /** The flags after a run of calls with the given severities, in order. */
  function RaiseAll(f: Flags, severities: seq<Option<Severity>>): Flags
    decreases |severities|
  {
    if severities == [] then f else RaiseAll(Raise(f, severities[0]), severities[1..])
  }

  /** After any sequence of calls, each flag is set exactly when it was set
      before or some call carried its severity. In particular the flags only
      go from false to true, and the order of the calls does not matter. */
  lemma {:induction false} RaiseAllRecords(f: Flags, severities: seq<Option<Severity>>)
    ensures RaiseAll(f, severities).hasException <==>
            f.hasException || exists i :: 0 <= i < |severities| && severities[i] == Some(Error)
    ensures RaiseAll(f, severities).hasWarning <==>
            f.hasWarning || exists i :: 0 <= i < |severities| && severities[i] == Some(Warn)
    decreases |severities|
  {
    if severities != [] {
      var tail := severities[1..];
      RaiseAllRecords(Raise(f, severities[0]), tail);
      if exists i :: 0 <= i < |tail| && tail[i] == Some(Error) {
        var i :| 0 <= i < |tail| && tail[i] == Some(Error);
        assert severities[i + 1] == Some(Error);
      }
      if exists i :: 0 <= i < |severities| && severities[i] == Some(Error) {
        var i :| 0 <= i < |severities| && severities[i] == Some(Error);
        if i > 0 { assert tail[i - 1] == Some(Error); }
      }
      if exists i :: 0 <= i < |tail| && tail[i] == Some(Warn) {
        var i :| 0 <= i < |tail| && tail[i] == Some(Warn);
        assert severities[i + 1] == Some(Warn);
      }
      if exists i :: 0 <= i < |severities| && severities[i] == Some(Warn) {
        var i :| 0 <= i < |severities| && severities[i] == Some(Warn);
        if i > 0 { assert tail[i - 1] == Some(Warn); }
      }
    }
  }

  /** The card as posted, following the statements of the post operation in
      order: when the argument is null or empty and automatic colouring is on,
      the theme colour is set to the error colour if an error was recorded,
      else to the warning colour if a warning was; then the argument is
      assigned to the theme colour unconditionally. The automatic choice is
      therefore always overwritten: the posted colour is the argument, and
      nothing else about the card changes. */
  function PostedCardAsWritten(c: Card, f: Flags, automaticallySetColor: bool,
                               defaults: DefaultColors, colorHexCode: Option<string>): (r: Card)
    ensures r == c.(themeColor := colorHexCode)
  {
    var chosen :=
      if IsNullOrEmpty(colorHexCode) && automaticallySetColor then
        if f.hasException then c.(themeColor := Some(defaults.errorColor))
        else if f.hasWarning then c.(themeColor := Some(defaults.warningColor))
        else c
      else c;
    chosen.(themeColor := colorHexCode)
  }

  /** A concrete case: automatic colouring on, an error recorded, no colour
      given; the card is posted without a colour, not with the error colour. */
  lemma ErrorColorLostAsWritten(c: Card, defaults: DefaultColors)
    ensures PostedCardAsWritten(c, Flags(true, false), true, defaults, None).themeColor == None
    ensures PostedCardAsWritten(c, Flags(true, false), true, defaults, None).themeColor != Some(defaults.errorColor)
  {
  }

  /** The resolution the automatic branch evidently intends: the argument is
      assigned only when the automatic branch is not taken. */
  function IntendedPostedCard(c: Card, f: Flags, automaticallySetColor: bool,
                              defaults: DefaultColors, colorHexCode: Option<string>): (r: Card)
    ensures r.(themeColor := c.themeColor) == c
    ensures !IsNullOrEmpty(colorHexCode) || !automaticallySetColor ==> r.themeColor == colorHexCode
    ensures IsNullOrEmpty(colorHexCode) && automaticallySetColor && f.hasException ==>
              r.themeColor == Some(defaults.errorColor)
    ensures IsNullOrEmpty(colorHexCode) && automaticallySetColor && !f.hasException && f.hasWarning ==>
              r.themeColor == Some(defaults.warningColor)
    ensures IsNullOrEmpty(colorHexCode) && automaticallySetColor && !f.hasException && !f.hasWarning ==>
              r.themeColor == c.themeColor
  {
    if IsNullOrEmpty(colorHexCode) && automaticallySetColor then
      if f.hasException then c.(themeColor := Some(defaults.errorColor))
      else if f.hasWarning then c.(themeColor := Some(defaults.warningColor))
      else c
    else c.(themeColor := colorHexCode)
  }

  /** The written and the intended post agree exactly when the automatic
      branch is not taken, or is taken and happens to pick the argument. */
  lemma AsWrittenMatchesIntendedIff(c: Card, f: Flags, automaticallySetColor: bool,
                                    defaults: DefaultColors, colorHexCode: Option<string>)
    ensures PostedCardAsWritten(c, f, automaticallySetColor, defaults, colorHexCode)
            == IntendedPostedCard(c, f, automaticallySetColor, defaults, colorHexCode)
            <==>
            !(IsNullOrEmpty(colorHexCode) && automaticallySetColor)
            || IntendedPostedCard(c, f, true, defaults, colorHexCode).themeColor == colorHexCode
  {
  }

  /** The intended rule over a whole run: with automatic colouring and no
      colour given, one Error call anywhere yields the error colour, whatever
      came before or after it; Warn calls without any Error yield the warning
      colour. */
  lemma {:induction false} IntendedColorOfRun(c: Card, severities: seq<Option<Severity>>,
                                            defaults: DefaultColors, colorHexCode: Option<string>)
    requires IsNullOrEmpty(colorHexCode)
    ensures (exists i :: 0 <= i < |severities| && severities[i] == Some(Error)) ==>
              IntendedPostedCard(c, RaiseAll(Flags(false, false), severities), true, defaults, colorHexCode).themeColor
              == Some(defaults.errorColor)
    ensures (forall i :: 0 <= i < |severities| ==> severities[i] != Some(Error)) &&
            (exists i :: 0 <= i < |severities| && severities[i] == Some(Warn)) ==>
              IntendedPostedCard(c, RaiseAll(Flags(false, false), severities), true, defaults, colorHexCode).themeColor
              == Some(defaults.warningColor)
  {
    RaiseAllRecords(Flags(false, false), severities);
  }
}
