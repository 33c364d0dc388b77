/** The parts of the connector-card object model that the logger builds:
    cards, sections, facts and open-link actions. Each is a value here; the
    logger updates a card by replacing it with a changed copy. Only the fields
    the logger sets are represented, and every list starts out empty. */
module ConnectorCard {
  import opened Wrappers

  /** A label/value pair shown inside a section. */
  datatype Fact = Fact(name: string, value: string)

  /** One target of an open-link action: an operating system tag and a URI. */
  datatype OpenUriTarget = OpenUriTarget(os: string, uri: string)

  /** An open-link action: its type tag, button label, id and targets. */
  datatype Action = OpenUri(actionType: string, name: string, id: Option<string>, targets: seq<OpenUriTarget>)

  datatype Section = Section(
    title: Option<string>,
    text: Option<string>,
    activityTitle: Option<string>,
    activitySubtitle: Option<string>,
    activityText: Option<string>,
    markdown: Option<bool>,
    facts: seq<Fact>,
    potentialAction: seq<Action>)

  /** The card. The three constructor arguments the logger passes are kept
      under the names of the values passed: module name, title, summary. */
  datatype Card = Card(
    moduleName: string,
    title: string,
    summary: Option<string>,
    themeColor: Option<string>,
    sections: seq<Section>)

  /** A freshly constructed card: no theme colour, no sections. */
  function NewCard(moduleName: string, title: string, summary: Option<string>): Card
  {
    Card(moduleName, title, summary, None, [])
  }

  /** A freshly constructed section: the given fields, no facts, no actions. */
  function NewSection(title: Option<string>, text: Option<string>, activityTitle: Option<string>,
                      activitySubtitle: Option<string>, activityText: Option<string>,
                      markdown: Option<bool>): Section
  {
    Section(title, text, activityTitle, activitySubtitle, activityText, markdown, [], [])
  }

  /** The button a link adds: type "OpenUri", no id, one "default" target. */
  function OpenUriLink(linkButtonText: string, linkTargetUri: string): Action
  {
    OpenUri("OpenUri", linkButtonText, None, [OpenUriTarget("default", linkTargetUri)])
  }

  /** Adding a section to a card. The empty and the non-empty case are written
      separately, as in the source; both are a plain append at the end, and
      nothing else about the card changes. */
  function WithSection(c: Card, s: Section): (r: Card)
    ensures r.sections == c.sections + [s]
    ensures |r.sections| == |c.sections| + 1 && r.sections[|c.sections|] == s
    ensures forall i :: 0 <= i < |c.sections| ==> r.sections[i] == c.sections[i]
    ensures r.(sections := c.sections) == c
  {
    if c.sections == [] then c.(sections := [s]) else c.(sections := c.sections + [s])
  }

  /** Adding an action to a section: an append in both cases; the facts and
      the other fields stay as they were. */
  function WithAction(s: Section, a: Action): (r: Section)
    ensures r.potentialAction == s.potentialAction + [a]
    ensures r.(potentialAction := s.potentialAction) == s
  {
    if s.potentialAction == [] then s.(potentialAction := [a])
    else s.(potentialAction := s.potentialAction + [a])
  }

  /** Adding a fact to a section: an append in both cases; the actions and
      the other fields stay as they were. */
  function WithFact(s: Section, f: Fact): (r: Section)
    ensures r.facts == s.facts + [f]
    ensures r.(facts := s.facts) == s
  {
    if s.facts == [] then s.(facts := [f]) else s.(facts := s.facts + [f])
  }

  /** Replacing section `i` of a card by `s`: the section count, every other
      section and every other card field are unchanged. */
  function WithSectionAt(c: Card, i: nat, s: Section): (r: Card)
    requires i < |c.sections|
    ensures |r.sections| == |c.sections| && r.sections[i] == s
    ensures forall j :: 0 <= j < |c.sections| && j != i ==> r.sections[j] == c.sections[j]
    ensures r.(sections := c.sections) == c
  {
    c.(sections := c.sections[i := s])
  }

  /** Appending facts one call at a time keeps them in call order: after
      adding `fs` in sequence, the fact list is the old one followed by `fs`. */
  function WithFacts(s: Section, fs: seq<Fact>): Section
    decreases |fs|
  {
    if fs == [] then s else WithFacts(WithFact(s, fs[0]), fs[1..])
  }

  lemma {:induction false} WithFactsInCallOrder(s: Section, fs: seq<Fact>)
    ensures WithFacts(s, fs).facts == s.facts + fs
    ensures WithFacts(s, fs).potentialAction == s.potentialAction
    decreases |fs|
  {
    if fs != [] {
      WithFactsInCallOrder(WithFact(s, fs[0]), fs[1..]);
      assert [fs[0]] + fs[1..] == fs;
      assert s.facts + [fs[0]] + fs[1..] == s.facts + fs;
    }
  }

  /** The same for actions. */
  function WithActions(s: Section, actions: seq<Action>): Section
    decreases |actions|
  {
    if actions == [] then s else WithActions(WithAction(s, actions[0]), actions[1..])
  }

  lemma {:induction false} WithActionsInCallOrder(s: Section, actions: seq<Action>)
    ensures WithActions(s, actions).potentialAction == s.potentialAction + actions
    ensures WithActions(s, actions).facts == s.facts
    decreases |actions|
  {
    if actions != [] {
      WithActionsInCallOrder(WithAction(s, actions[0]), actions[1..]);
      assert [actions[0]] + actions[1..] == actions;
      assert s.potentialAction + [actions[0]] + actions[1..] == s.potentialAction + actions;
    }
  }
}
