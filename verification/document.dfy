/** The generated guide: a list of sections, the lookup of the section a tab
    selects, and the append-only merge of a refinement section.
 */
module Doc {
  import opened Js
  import opened Blocks
  import opened Numerals
  import opened View
  import MainRender

  datatype Meta = Meta(role: Option<string>, generatedAt: Option<string>)

  /** One section of the guide; `isRefinement` marks the ones added later. */
  datatype Section = Section(id: string, title: Option<string>, content: Option<seq<Block>>, isRefinement: bool)

  datatype Document = Document(meta: Meta, sections: seq<Section>)

  /** What a refinement call returns: an optional title and optional content. */
  datatype Payload = Payload(title: Option<string>, content: Option<seq<Block>>)

  /** The title of a refinement section whose payload has a falsy title. */
  const DefaultRefinementTitle := "New Refinement"

  /** `sections.find(s => s.id === id)` as an index: the first section with that
      id, or none when no section has it. */
  function FindSection(sections: seq<Section>, id: string): (r: Option<nat>)
    ensures r.Some? ==> r.value < |sections| && sections[r.value].id == id
    ensures r.Some? ==> forall j :: 0 <= j < r.value ==> sections[j].id != id
    ensures r.None? <==> forall j :: 0 <= j < |sections| ==> sections[j].id != id
  {
    if sections == [] then None
    else if sections[0].id == id then Some(0)
    else
      var rest := FindSection(sections[1..], id);
      assert forall j :: 1 <= j < |sections| ==> sections[j] == sections[1..][j - 1];
      if rest.None? then None else Some(rest.value + 1)
  }

  /** Appending a section never changes which earlier section an id finds; the
      new one is found only when no earlier section has its id. */
  lemma {:induction false} FindSectionAppend(sections: seq<Section>, x: Section, id: string)
    ensures FindSection(sections + [x], id) ==
              if FindSection(sections, id).Some? then FindSection(sections, id)
              else if x.id == id then Some(|sections|) else None
    decreases |sections|
  {
    if sections != [] {
      assert (sections + [x])[0] == sections[0];
      assert (sections + [x])[1..] == sections[1..] + [x];
      FindSectionAppend(sections[1..], x, id);
    } else {
      assert sections + [x] == [x];
    }
  }

  /** The section the active tab selects, if any. */
  function ActiveSection(data: Option<Document>, tab: string): (r: Option<Section>)
    ensures data.None? ==> r.None?
    ensures data.Some? && r.Some? ==> r.value in data.value.sections && r.value.id == tab
    ensures data.Some? ==> (r.None? <==> forall s :: s in data.value.sections ==> s.id != tab)
    ensures data.Some? && r.Some? ==>
              exists k :: 0 <= k < |data.value.sections| && data.value.sections[k] == r.value
                          && forall j :: 0 <= j < k ==> data.value.sections[j].id != tab
  {
    match data
    case None => None
    case Some(doc) =>
      var k := FindSection(doc.sections, tab);
      if k.Some? then Some(doc.sections[k.value]) else None
  }

  /** `getActiveContent`: the content of the first section with the active id;
      the empty list when there is no document, no such section, or the section
      has no content. */
  function ActiveContent(data: Option<Document>, tab: string): (r: seq<Block>)
    ensures data.None? ==> r == []
    ensures data.Some? && FindSection(data.value.sections, tab).None? ==> r == []
    ensures data.Some? && FindSection(data.value.sections, tab).Some? ==>
              r == data.value.sections[FindSection(data.value.sections, tab).value].content.GetOr([])
  {
    var s := ActiveSection(data, tab);
    if s.Some? then s.value.content.GetOr([]) else []
  }

  /** The id of a refinement section created at millisecond `t`. */
  function RefineId(t: nat): (r: string)
    ensures |r| > 7 && r[..7] == "refine_"
  {
    "refine_" + Decimal(t)
  }

  /** Refinements made at different times get different ids. */
  lemma RefineIdInjective(t: nat, u: nat)
    ensures RefineId(t) == RefineId(u) ==> t == u
  {
    if RefineId(t) == RefineId(u) {
      assert Decimal(t) == RefineId(t)[7..];
      assert Decimal(u) == RefineId(u)[7..];
      DecimalInjective(t, u);
    }
  }

  /** The ids the generator is asked to use for its sections. */
  predicate GeneratedId(id: string) {
    id == "intro" || id == "tech_stack" || id == "technical" || id == "behavioral" || id == "reverse"
  }

  /** A refinement id differs from the five section ids the prompt requests.
      The generator may still return sections with other ids, which this does
      not cover. */
  lemma RefineIdNotGenerated(t: nat)
    ensures !GeneratedId(RefineId(t))
  {
    var r := RefineId(t);
    assert r[0] == 'r' && r[1] == 'e' && r[2] == 'f';
  }

  /** No section of the document has this id. */
  predicate FreshId(doc: Document, id: string) {
    forall s :: s in doc.sections ==> s.id != id
  }

  /** The refinement merge: one section appended, marked as a refinement, with the
      payload's content and its title or the default title; the meta and the
      sections before it are untouched. */
  function AppendRefinement(doc: Document, t: nat, p: Payload): (r: Document)
    ensures r.meta == doc.meta
    ensures |r.sections| == |doc.sections| + 1
    ensures r.sections[..|doc.sections|] == doc.sections
    ensures var n := r.sections[|doc.sections|];
            && n.id == RefineId(t) && n.isRefinement && n.content == p.content
            && (TruthyStr(p.title) ==> n.title == p.title)
            && (!TruthyStr(p.title) ==> n.title == Some(DefaultRefinementTitle))
  {
    var section := Section(RefineId(t), Some(OrElse(p.title, DefaultRefinementTitle)), p.content, true);
    var r := doc.(sections := doc.sections + [section]);
    assert r.sections[..|doc.sections|] == doc.sections;
    r
  }

  /** With a fresh id, the tab of the new section shows the payload's content. */
  lemma ActiveAfterAppend(doc: Document, t: nat, p: Payload)
    requires FreshId(doc, RefineId(t))
    ensures ActiveContent(Some(AppendRefinement(doc, t, p)), RefineId(t)) == p.content.GetOr([])
  {
    var section := AppendRefinement(doc, t, p).sections[|doc.sections|];
    assert AppendRefinement(doc, t, p).sections == doc.sections + [section];
    FindSectionAppend(doc.sections, section, RefineId(t));
  }

  /** Every tab that selected a section before the merge selects the same content
      after it; this includes a stale section that already has the new id, which
      then hides the new one. */
  lemma ExistingTabsUnchanged(doc: Document, t: nat, p: Payload, tab: string)
    requires FindSection(doc.sections, tab).Some?
    ensures ActiveContent(Some(AppendRefinement(doc, t, p)), tab) == ActiveContent(Some(doc), tab)
  {
    var section := AppendRefinement(doc, t, p).sections[|doc.sections|];
    assert AppendRefinement(doc, t, p).sections == doc.sections + [section];
    FindSectionAppend(doc.sections, section, tab);
  }

  /** A tab other than the new id shows what it showed before the merge. */
  lemma OtherTabsUnchanged(doc: Document, t: nat, p: Payload, tab: string)
    requires tab != RefineId(t)
    ensures ActiveContent(Some(AppendRefinement(doc, t, p)), tab) == ActiveContent(Some(doc), tab)
  {
    var section := AppendRefinement(doc, t, p).sections[|doc.sections|];
    assert AppendRefinement(doc, t, p).sections == doc.sections + [section];
    FindSectionAppend(doc.sections, section, tab);
  }

  /** A card as it is printed: the keyword chips of its panel are hidden on
      paper, and every other section is printed as drawn. */
  function PrintCard(c: Card): (r: Card)
    ensures r.(panel := c.panel) == c
    ensures r.panel.Some? <==> c.panel.Some?
    ensures r.panel.Some? ==>
              r.panel.value.keywords.None? && r.panel.value.good == c.panel.value.good
              && r.panel.value.bad == c.panel.value.bad
    ensures EmptyCard(r) <==> EmptyCard(c)
  {
    match c.panel
    case None => c
    case Some(p) => c.(panel := Some(p.(keywords := None)))
  }

  /** The printed content of one section: the newer renderer's content area
      with its filter as written, each card printed without keyword chips. */
  function PrintBody(content: Option<seq<Block>>): (r: MainRender.Content)
    ensures r == MainRender.Placeholder <==> content == None || content == Some([])
    ensures r.CardList? ==>
              var written := MainRender.CardsAsWritten(content.value);
              |r.cards| == |written| && forall k :: 0 <= k < |written| ==> r.cards[k] == PrintCard(written[k])
    ensures r.CardList? ==> forall c :: c in r.cards ==> c.panel.Some? ==> c.panel.value.keywords.None?
  {
    match MainRender.RenderContentAsWritten(content)
    case Placeholder => MainRender.Placeholder
    case CardList(cards) =>
      MainRender.CardList(seq(|cards|, k requires 0 <= k < |cards| => PrintCard(cards[k])))
  }

  /** The print view keeps the filter as written, so `{answer: "x"}` puts an
      empty card element into the printed list as well; on paper the card has
      no border or padding, so it is an empty gap. */
  lemma AnswerOnlyPrintsEmptyCard()
    ensures var b := EmptyBlock.(answer := Some("x"));
            PrintBody(Some([b])) == MainRender.CardList([PrintCard(MainRender.RenderBlock(b))])
            && EmptyCard(PrintBody(Some([b])).cards[0])
  {
  }

  /** One section of the print view: its title above its printed content. */
  datatype Printed = Printed(title: Option<string>, body: MainRender.Content)

  /** The print view of the newer app: every section in order, each printed
      from its own content. */
  function PrintView(doc: Document): (r: seq<Printed>)
    ensures |r| == |doc.sections|
    ensures forall i :: 0 <= i < |r| ==>
              r[i].title == doc.sections[i].title && r[i].body == PrintBody(doc.sections[i].content)
  {
    seq(|doc.sections|, i requires 0 <= i < |doc.sections| =>
      Printed(doc.sections[i].title, PrintBody(doc.sections[i].content)))
  }

  /** After a merge the print view gains exactly the new section at the end. */
  lemma PrintViewAfterAppend(doc: Document, t: nat, p: Payload)
    ensures var r := PrintView(AppendRefinement(doc, t, p));
            r[..|doc.sections|] == PrintView(doc)
            && r[|doc.sections|] == Printed(AppendRefinement(doc, t, p).sections[|doc.sections|].title,
                                            PrintBody(p.content))
  {
  }
}
