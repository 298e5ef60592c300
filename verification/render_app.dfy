/** The older renderer (`OutputContent` of src/App.jsx): no content filter, no
    structural inference; every block gets a titled header, and only the `qa`
    tag draws the good/bad panel, with a stock bad answer when none is given.
 */
module AppRender {
  import opened Js
  import opened Markup
  import opened Blocks
  import opened View
  import MainRender

  /** The bad answer shown when a `qa` block has none. */
  const DefaultBadAnswer := "Avoiding the core of the question."

  /** The header of every card: the tag's icon, if it has one, and the title, or
      the question when the title is falsy. */
  function HeaderSection(b: Block): (r: Header)
    ensures r.title == Or(b.title, b.question)
    ensures r.icon.Some? <==>
              b.tag == Some("guide") || b.tag == Some("script") || b.tag == Some("qa") || b.tag == Some("list")
    ensures b.tag == Some("qa") ==> r.icon == Some(Help)
  {
    var icon :=
      if b.tag == Some("guide") then Some(Book)
      else if b.tag == Some("script") then Some(Speech)
      else if b.tag == Some("qa") then Some(Help)
      else if b.tag == Some("list") then Some(Target)
      else None;
    Header(icon, Or(b.title, b.question))
  }

  /** The good/bad panel, drawn only for the `qa` tag: one line with the good
      answer or the insight, one line with the bad answer or the stock text, and
      the block's keywords. Points arrays are never shown. */
  function PanelSection(b: Block): (r: Option<Panel>)
    ensures r.Some? <==> b.tag == Some("qa")
    ensures r.Some? ==> r.value.good == Line(Or(b.goodAnswer, b.insight))
    ensures r.Some? ==> r.value.bad.Some? && r.value.bad.value.Line? && TruthyStr(r.value.bad.value.text)
    ensures r.Some? && TruthyStr(b.badAnswer) ==> r.value.bad == Some(Line(b.badAnswer))
    ensures r.Some? && !TruthyStr(b.badAnswer) ==> r.value.bad == Some(Line(Some(DefaultBadAnswer)))
    ensures r.Some? ==> r.value.keywords == b.keywords
  {
    if b.tag == Some("qa") then
      Some(Panel(Line(Or(b.goodAnswer, b.insight)),
                 Some(Line(Some(OrElse(b.badAnswer, DefaultBadAnswer)))),
                 b.keywords))
    else None
  }

  /** The card of one block, its sections in display order; the stack sections
      and the fallback view do not exist in this renderer, and the header is
      always drawn, so no card is empty. */
  function RenderBlock(b: Block): (r: Card)
    ensures r.stackHeader.None? && r.stackQuestions.None? && r.fallback.None?
    ensures r.header.Some? && !EmptyCard(r)
    ensures r.panel.Some? <==> b.tag == Some("qa")
  {
    Card(None, Some(HeaderSection(b)), TextSection(b), BulletsSection(b),
         None, QuotesSection(b), PanelSection(b), None)
  }

  /** The content area: nothing at all without data, otherwise one card per
      block, in order, with no block left out. */
  function RenderContent(data: Option<seq<Block>>): (r: Option<seq<Card>>)
    ensures r.None? <==> data.None?
    ensures r.Some? ==> |r.value| == |data.value|
    ensures r.Some? ==> forall i :: 0 <= i < |data.value| ==> r.value[i] == RenderBlock(data.value[i])
    ensures r.Some? ==> forall c :: c in r.value ==> !EmptyCard(c)
  {
    match data
    case None => None
    case Some(blocks) =>
      Some(seq(|blocks|, i requires 0 <= i < |blocks| => RenderBlock(blocks[i])))
  }

  /** The two renderers draw the text, the bullets and the quotes of a block
      alike; for the guide, script and list tags the headers agree too. */
  lemma SharedSectionsAgree(b: Block)
    ensures RenderBlock(b).text == MainRender.RenderBlock(b).text
    ensures RenderBlock(b).bullets == MainRender.RenderBlock(b).bullets
    ensures RenderBlock(b).quotes == MainRender.RenderBlock(b).quotes
    ensures IsTitledKind(b) ==> RenderBlock(b).header == MainRender.RenderBlock(b).header
  {
  }

  /** A `qa` block with a truthy bad answer and no good or bad answer points
      gets the same panel from both renderers. */
  lemma TaggedQAPanelsAgree(b: Block)
    requires b.tag == Some("qa") && TruthyStr(b.badAnswer)
    requires !Present(b.goodAnswerPoints) && !Present(b.badAnswerPoints)
    ensures RenderBlock(b).panel == MainRender.RenderBlock(b).panel
  {
  }

  /** Without a bad answer, a `qa` block shows the stock bad answer here, while
      the newer renderer leaves the bad column out. */
  lemma MissingBadAnswer(b: Block)
    requires b.tag == Some("qa") && !TruthyStr(b.badAnswer) && !Present(b.badAnswerPoints)
    ensures RenderBlock(b).panel.value.bad == Some(Line(Some(DefaultBadAnswer)))
    ensures MainRender.RenderBlock(b).panel.Some? && MainRender.RenderBlock(b).panel.value.bad.None?
  {
  }

  /** A block with a question and a good answer but no tag is a QA block only to
      the newer renderer. */
  lemma UntaggedQuestionPanel(b: Block)
    requires b.tag == None && TruthyStr(b.question) && TruthyStr(b.goodAnswer)
    ensures RenderBlock(b).panel.None?
    ensures MainRender.RenderBlock(b).panel.Some?
  {
  }
}
