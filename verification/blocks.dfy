/** The loosely-typed content block the generator produces, and the structural
    tests the newer renderer applies to it before choosing what to draw.
 */
module Blocks {
  import opened Js

  /** One entry of a stack group's `questions` array. */
  datatype StackQ = StackQ(
    question: Option<string>,
    answer: Option<string>,
    answerPoints: Option<seq<string>>)

  /** A block: every recognised field is optional. `tag` is the block's `type`
      field. */
  datatype Block = Block(
    tag: Option<string>,
    title: Option<string>,
    text: Option<string>,
    points: Option<seq<string>>,
    items: Option<seq<string>>,
    question: Option<string>,
    insight: Option<string>,
    goodAnswer: Option<string>,
    goodAnswerPoints: Option<seq<string>>,
    badAnswer: Option<string>,
    badAnswerPoints: Option<seq<string>>,
    keywords: Option<seq<string>>,
    stackName: Option<string>,
    questions: Option<seq<StackQ>>,
    answer: Option<string>,
    answerPoints: Option<seq<string>>)

  /** The block with no field set (`{}`). */
  const EmptyBlock := Block(None, None, None, None, None, None, None, None,
                            None, None, None, None, None, None, None, None)

  /** The newer renderer's safety check: some field it considers content is
      truthy. `insight`, `keywords`, `badAnswer`, `badAnswerPoints`, `title`,
      `tag` and `answerPoints` do not count. */
  predicate HasContent(b: Block)
    ensures HasContent(b) ==> b != EmptyBlock
  {
    || TruthyStr(b.text) || Present(b.points) || Present(b.questions)
    || Present(b.items) || Present(b.goodAnswerPoints) || TruthyStr(b.goodAnswer)
    || TruthyStr(b.question) || TruthyStr(b.stackName) || TruthyStr(b.answer)
  }

  /** Tagged `stack_group`, or carrying both a stack name and a questions array. */
  predicate IsStackGroup(b: Block)
    ensures IsStackGroup(b) ==> b.tag == Some("stack_group") || HasContent(b)
  {
    b.tag == Some("stack_group") || (TruthyStr(b.stackName) && Present(b.questions))
  }

  /** Tagged `qa`, or a question with a good answer or either points array. A
      plain `badAnswer` does not make a block a QA block. */
  predicate IsQA(b: Block)
    ensures IsQA(b) ==> b.tag == Some("qa") || (TruthyStr(b.question) && HasContent(b))
  {
    || b.tag == Some("qa")
    || (TruthyStr(b.question)
        && (TruthyStr(b.goodAnswer) || Present(b.goodAnswerPoints) || Present(b.badAnswerPoints)))
  }

  /** The fallback: a question that is neither a QA block nor a stack group. */
  predicate IsSimpleQuestion(b: Block)
    ensures IsSimpleQuestion(b) ==> HasContent(b)
    ensures IsSimpleQuestion(b) ==>
              && b.tag != Some("qa") && b.tag != Some("stack_group")
              && !TruthyStr(b.goodAnswer) && !Present(b.goodAnswerPoints) && !Present(b.badAnswerPoints)
  {
    !IsQA(b) && !IsStackGroup(b) && TruthyStr(b.question)
  }

  /** The tags for which the newer renderer draws a titled header. */
  predicate IsTitledKind(b: Block) {
    b.tag == Some("guide") || b.tag == Some("script") || b.tag == Some("list")
  }

  /** The fields outside the content check do not affect it. */
  lemma ContentIgnoresFields(b: Block)
    ensures HasContent(b) <==>
              HasContent(b.(tag := None, title := None, insight := None, keywords := None,
                            badAnswer := None, badAnswerPoints := None, answerPoints := None))
  {
  }
}
