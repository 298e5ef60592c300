/** The newer renderer (`OutputContent` of src/main.jsx): a content filter, then
    structural inference of a block's shape, then a card whose sections depend
    on that shape and on which fields are truthy.
 */
module MainRender {
  import opened Js
  import opened Markup
  import opened Blocks
  import opened View

  /** The good approach column: the good points when present, otherwise one line
      with the good answer, or the insight when the good answer is falsy. */
  function GoodColumn(b: Block): (r: Column)
    ensures Present(b.goodAnswerPoints) ==> r == Points(b.goodAnswerPoints.value)
    ensures !Present(b.goodAnswerPoints) ==> r.Line? && (TruthyStr(r.text) <==> TruthyStr(b.goodAnswer) || TruthyStr(b.insight))
    ensures !Present(b.goodAnswerPoints) && TruthyStr(b.goodAnswer) ==> r == Line(b.goodAnswer)
    ensures !Present(b.goodAnswerPoints) && !TruthyStr(b.goodAnswer) ==> r == Line(b.insight)
  {
    if Present(b.goodAnswerPoints) then Points(b.goodAnswerPoints.value)
    else Line(Or(b.goodAnswer, b.insight))
  }

  /** The bad approach column: the bad points when present, otherwise one line
      with the bad answer as it is, with no second field to fall back to. */
  function BadColumn(b: Block): (r: Column)
    ensures Present(b.badAnswerPoints) ==> r == Points(b.badAnswerPoints.value)
    ensures !Present(b.badAnswerPoints) ==> r == Line(b.badAnswer)
  {
    if Present(b.badAnswerPoints) then Points(b.badAnswerPoints.value)
    else Line(b.badAnswer)
  }

  /** The icon of a titled header. */
  function TitledIcon(tag: Option<string>): Option<Icon> {
    if tag == Some("guide") then Some(Book)
    else if tag == Some("script") then Some(Speech)
    else if tag == Some("list") then Some(Target)
    else None
  }

  /** The stack-group header: drawn for a block tagged `stack_group` or carrying
      a truthy stack name with a questions array; it shows the stack name. */
  function StackHeaderSection(b: Block): (r: Option<Option<string>>)
    ensures r.Some? <==> b.tag == Some("stack_group") || (TruthyStr(b.stackName) && Present(b.questions))
    ensures r.Some? ==> r.value == b.stackName
  {
    if IsStackGroup(b) then Some(b.stackName) else None
  }

  /** The titled header: drawn only for the guide, script and list tags, with the
      tag's icon and the title, or the question when the title is falsy. */
  function HeaderSection(b: Block): (r: Option<Header>)
    ensures r.Some? <==> b.tag == Some("guide") || b.tag == Some("script") || b.tag == Some("list")
    ensures r.Some? ==> r.value.title == Or(b.title, b.question)
    ensures r.Some? ==> r.value.icon == Some(if b.tag == Some("guide") then Book
                                             else if b.tag == Some("script") then Speech else Target)
  {
    if IsTitledKind(b) then Some(Header(TitledIcon(b.tag), Or(b.title, b.question))) else None
  }

  /** The numbered stack-group questions: drawn only in a stack group that has a
      questions array, one entry per question, numbered from one. */
  function StackQuestionsSection(b: Block): (r: Option<seq<StackEntry>>)
    ensures r.Some? <==> IsStackGroup(b) && Present(b.questions)
    ensures r.Some? ==>
              |r.value| == |b.questions.value|
              && forall i :: 0 <= i < |b.questions.value| ==>
                   r.value[i].number == i + 1 && r.value[i].question == b.questions.value[i].question
                   && r.value[i].answers == AnswerList(b.questions.value[i])
  {
    if IsStackGroup(b) && Present(b.questions) then Some(StackEntries(b.questions.value)) else None
  }

  /** The good/bad panel, drawn exactly for a QA block: the good column always,
      the bad column only for bad points or a truthy bad answer, and the
      block's keywords. */
  function PanelSection(b: Block): (r: Option<Panel>)
    ensures r.Some? <==>
              || b.tag == Some("qa")
              || (TruthyStr(b.question)
                  && (TruthyStr(b.goodAnswer) || Present(b.goodAnswerPoints) || Present(b.badAnswerPoints)))
    ensures r.Some? ==> r.value.good == GoodColumn(b)
    ensures r.Some? ==> (r.value.bad.Some? <==> Present(b.badAnswerPoints) || TruthyStr(b.badAnswer))
    ensures r.Some? && r.value.bad.Some? ==>
              r.value.bad.value == if Present(b.badAnswerPoints) then Points(b.badAnswerPoints.value) else Line(b.badAnswer)
    ensures r.Some? ==> r.value.keywords == b.keywords
  {
    if IsQA(b) then
      Some(Panel(GoodColumn(b),
                 if Present(b.badAnswerPoints) || TruthyStr(b.badAnswer) then Some(BadColumn(b)) else None,
                 b.keywords))
    else None
  }

  /** The fallback question view: drawn for a truthy question in a block that is
      neither a QA block nor a stack group; it shows the question, the answer
      when truthy and the answer points when present. */
  function FallbackSection(b: Block): (r: Option<Fallback>)
    ensures r.Some? <==> TruthyStr(b.question) && !IsQA(b) && !IsStackGroup(b)
    ensures r.Some? ==>
              && Some(r.value.question) == b.question
              && (r.value.answer.Some? <==> TruthyStr(b.answer))
              && (r.value.answer.Some? ==> r.value.answer == b.answer)
              && r.value.answerPoints == b.answerPoints
  {
    if IsSimpleQuestion(b) then
      Some(Fallback(b.question.value, if TruthyStr(b.answer) then b.answer else None, b.answerPoints))
    else None
  }

  /** The tags for which a card always has a section, whatever its fields. */
  predicate DrawnTag(tag: Option<string>) {
    || tag == Some("stack_group") || tag == Some("guide") || tag == Some("script")
    || tag == Some("list") || tag == Some("qa")
  }

  /** The card of one block, its sections in display order. The fallback view
      never shares a card with the good/bad panel or the stack sections. A card
      is empty exactly when the block has none of: a tag that always draws a
      section, truthy text, points, items, a truthy question, or a truthy stack
      name together with a questions array. */
  function RenderBlock(b: Block): (r: Card)
    ensures r.fallback.Some? ==> r.panel.None? && r.stackHeader.None? && r.stackQuestions.None?
    ensures EmptyCard(r) <==>
              && !DrawnTag(b.tag) && !TruthyStr(b.text) && !Present(b.points) && !Present(b.items)
              && !TruthyStr(b.question) && !(TruthyStr(b.stackName) && Present(b.questions))
  {
    Card(StackHeaderSection(b), HeaderSection(b), TextSection(b), BulletsSection(b),
         StackQuestionsSection(b), QuotesSection(b), PanelSection(b), FallbackSection(b))
  }

  /** A block whose bad answer is its only answer field is not a QA block: its
      question falls back to the simple view and the bad answer is not shown. */
  lemma BadAnswerAloneFallsBack(b: Block)
    requires b.tag == None && TruthyStr(b.question) && TruthyStr(b.badAnswer)
    requires !TruthyStr(b.goodAnswer) && !Present(b.goodAnswerPoints) && !Present(b.badAnswerPoints)
    requires !(TruthyStr(b.stackName) && Present(b.questions))
    ensures RenderBlock(b).panel.None?
    ensures RenderBlock(b).fallback == Some(Fallback(b.question.value, if TruthyStr(b.answer) then b.answer else None, b.answerPoints))
  {
  }

  /** The shapes are not exclusive: a stack group that also has a question and a
      good answer draws both the stack sections and the good/bad panel. */
  lemma StackGroupAndQA(b: Block)
    requires b.tag == Some("stack_group") && Present(b.questions)
    requires TruthyStr(b.question) && TruthyStr(b.goodAnswer) && !Present(b.goodAnswerPoints)
    ensures RenderBlock(b).stackHeader.Some? && RenderBlock(b).stackQuestions.Some?
    ensures RenderBlock(b).panel.Some? && RenderBlock(b).panel.value.good == Line(b.goodAnswer)
    ensures RenderBlock(b).fallback.None?
  {
  }

  /** What the content area shows: a placeholder for missing or empty content,
      otherwise a list of cards. */
  datatype Content = Placeholder | CardList(cards: seq<Card>)

  /** The cards as src/main.jsx draws them: one per block that passes the
      content filter, even when the card then has no section at all. */
  function CardsAsWritten(blocks: seq<Block>): (r: seq<Card>)
    ensures |r| <= |blocks|
    ensures forall i :: 0 <= i < |blocks| && HasContent(blocks[i]) ==> RenderBlock(blocks[i]) in r
    ensures forall c :: c in r ==> exists i :: 0 <= i < |blocks| && HasContent(blocks[i]) && c == RenderBlock(blocks[i])
  {
    if blocks == [] then []
    else
      var rest := CardsAsWritten(blocks[1..]);
      var r := (if HasContent(blocks[0]) then [RenderBlock(blocks[0])] else []) + rest;
      assert forall i :: 1 <= i < |blocks| ==> blocks[i] == blocks[1..][i - 1];
      assert forall c :: c in rest ==> exists i :: 0 <= i < |blocks| && HasContent(blocks[i]) && c == RenderBlock(blocks[i]) by {
        forall c | c in rest
          ensures exists i :: 0 <= i < |blocks| && HasContent(blocks[i]) && c == RenderBlock(blocks[i])
        {
          var k :| 0 <= k < |blocks[1..]| && HasContent(blocks[1..][k]) && c == RenderBlock(blocks[1..][k]);
          assert blocks[k + 1] == blocks[1..][k];
        }
      }
      r
  }

  /** The cards of consecutive runs of blocks follow each other. */
  lemma {:induction false} CardsAsWrittenConcat(a: seq<Block>, b: seq<Block>)
    ensures CardsAsWritten(a + b) == CardsAsWritten(a) + CardsAsWritten(b)
    decreases |a|
  {
    if a == [] {
      assert a + b == b;
    } else {
      assert (a + b)[0] == a[0];
      assert (a + b)[1..] == a[1..] + b;
      CardsAsWrittenConcat(a[1..], b);
    }
  }

  /** A block the content filter rejects draws nothing, wherever it stands. */
  lemma DroppedBlock(a: seq<Block>, x: Block, b: seq<Block>)
    requires !HasContent(x)
    ensures CardsAsWritten(a + [x] + b) == CardsAsWritten(a) + CardsAsWritten(b)
  {
    assert CardsAsWritten([x]) == [] by {
      assert [x][1..] == [];
    }
    CardsAsWrittenConcat(a + [x], b);
    CardsAsWrittenConcat(a, [x]);
    assert CardsAsWritten(a + [x]) == CardsAsWritten(a);
  }

  /** The newer renderer's content area as written. */
  function RenderContentAsWritten(data: Option<seq<Block>>): (r: Content)
    ensures r == Placeholder <==> data == None || data == Some([])
    ensures r.CardList? ==> r.cards == CardsAsWritten(data.value)
  {
    if data == None || data == Some([]) then Placeholder else CardList(CardsAsWritten(data.value))
  }

  /** The block `{answer: "x"}` passes the content filter, yet no section of its
      card is drawn: the list shows an empty box. */
  lemma AnswerOnlyDrawsEmptyCard()
    ensures var b := EmptyBlock.(answer := Some("x"));
            HasContent(b) && EmptyCard(RenderBlock(b))
            && RenderContentAsWritten(Some([b])) == CardList([RenderBlock(b)])
  {
    var b := EmptyBlock.(answer := Some("x"));
    assert [b][1..] == [];
  }

  /** A block the corrected filter keeps: it passes the content check and its
      card has at least one section. */
  predicate Shown(b: Block) {
    HasContent(b) && !EmptyCard(RenderBlock(b))
  }

  /** The cards with the content filter corrected: a block is drawn only when it
      passes the check and its card is not empty. */
  function ShownCards(blocks: seq<Block>): (r: seq<Card>)
    ensures |r| <= |blocks|
    ensures forall c :: c in r ==> !EmptyCard(c)
    ensures forall i :: 0 <= i < |blocks| && Shown(blocks[i]) ==> RenderBlock(blocks[i]) in r
    ensures forall c :: c in r ==> exists i :: 0 <= i < |blocks| && HasContent(blocks[i]) && c == RenderBlock(blocks[i])
  {
    if blocks == [] then []
    else
      var rest := ShownCards(blocks[1..]);
      var r := (if Shown(blocks[0]) then [RenderBlock(blocks[0])] else []) + rest;
      assert forall i :: 1 <= i < |blocks| ==> blocks[i] == blocks[1..][i - 1];
      assert forall c :: c in rest ==> exists i :: 0 <= i < |blocks| && HasContent(blocks[i]) && c == RenderBlock(blocks[i]) by {
        forall c | c in rest
          ensures exists i :: 0 <= i < |blocks| && HasContent(blocks[i]) && c == RenderBlock(blocks[i])
        {
          var k :| 0 <= k < |blocks[1..]| && HasContent(blocks[1..][k]) && c == RenderBlock(blocks[1..][k]);
          assert blocks[k + 1] == blocks[1..][k];
        }
      }
      r
  }

  /** The cards with the empty ones left out, the others in order. */
  function DropEmpty(cards: seq<Card>): (r: seq<Card>)
    ensures |r| <= |cards|
    ensures forall c :: c in r <==> c in cards && !EmptyCard(c)
  {
    if cards == [] then []
    else (if EmptyCard(cards[0]) then [] else [cards[0]]) + DropEmpty(cards[1..])
  }

  /** The corrected list is the list as written with its empty boxes removed. */
  lemma {:induction false} ShownCardsDropEmpty(blocks: seq<Block>)
    ensures ShownCards(blocks) == DropEmpty(CardsAsWritten(blocks))
    decreases |blocks|
  {
    if blocks != [] {
      ShownCardsDropEmpty(blocks[1..]);
      var w := CardsAsWritten(blocks);
      if HasContent(blocks[0]) {
        assert w[0] == RenderBlock(blocks[0]) && w[1..] == CardsAsWritten(blocks[1..]);
      } else {
        assert w == CardsAsWritten(blocks[1..]);
      }
    }
  }

  /** The newer renderer's content area with the corrected filter. */
  function RenderContent(data: Option<seq<Block>>): (r: Content)
    ensures r == Placeholder <==> data == None || data == Some([])
    ensures r.CardList? ==> r.cards == DropEmpty(CardsAsWritten(data.value))
    ensures r.CardList? ==> forall c :: c in r.cards ==> !EmptyCard(c)
  {
    if data == None || data == Some([]) then Placeholder
    else
      ShownCardsDropEmpty(data.value);
      CardList(ShownCards(data.value))
  }

  /** With the corrected filter, `{answer: "x"}` draws no card at all. */
  lemma AnswerOnlyDrawsNoCard()
    ensures var b := EmptyBlock.(answer := Some("x"));
            RenderContent(Some([b])) == CardList([])
  {
    var b := EmptyBlock.(answer := Some("x"));
    assert [b][1..] == [];
  }
}
