/** The display parts a block card is made of, shared by both renderers, and the
    per-entry projections they both apply.
 */
module View {
  import opened Js
  import opened Markup
  import opened Blocks

  /** The body of a good or bad approach column: a bullet list, or one line whose
      text may be missing (an empty paragraph). */
  datatype Column = Points(entries: seq<string>) | Line(text: Option<string>)

  /** One numbered question of a stack group with the answers listed under it. */
  datatype StackEntry = StackEntry(number: nat, question: Option<string>, answers: seq<string>)

  /** The icon in front of a titled header, one per block tag that has one. */
  datatype Icon = Book | Speech | Help | Target

  /** A titled header: its icon, if the tag has one, and its title text. */
  datatype Header = Header(icon: Option<Icon>, title: Option<string>)

  /** The good/bad approach panel of a question block: the good column always,
      the bad column and the keyword chips only when drawn. */
  datatype Panel = Panel(good: Column, bad: Option<Column>, keywords: Option<seq<string>>)

  /** The fallback question view: the question, the answer paragraph when drawn,
      and the answer bullets when drawn. */
  datatype Fallback = Fallback(question: string, answer: Option<string>, answerPoints: Option<seq<string>>)

  /** One card, its sections in display order; `None` is a section not drawn.
      A drawn header or stack header may still show no text (`Some(None)`). */
  datatype Card = Card(
    stackHeader: Option<Option<string>>,
    header: Option<Header>,
    text: Option<string>,
    bullets: Option<seq<seq<Span>>>,
    stackQuestions: Option<seq<StackEntry>>,
    quotes: Option<seq<string>>,
    panel: Option<Panel>,
    fallback: Option<Fallback>)

  /** A card in which no section is drawn: an empty white box. */
  predicate EmptyCard(c: Card) {
    && c.stackHeader.None? && c.header.None? && c.text.None? && c.bullets.None?
    && c.stackQuestions.None? && c.quotes.None? && c.panel.None? && c.fallback.None?
  }

  /** The `points` entries, each rewritten for emphasis. */
  function EmphasizeAll(points: seq<string>): (r: seq<seq<Span>>)
    ensures |r| == |points|
    ensures forall i :: 0 <= i < |points| ==> r[i] == Emphasis(points[i])
    ensures forall i :: 0 <= i < |points| ==> Flatten(r[i]) == points[i]
    ensures forall i :: 0 <= i < |points| && NoStarPair(points[i]) && points[i] != [] ==>
              r[i] == [Plain(points[i])]
  {
    var r := seq(|points|, i requires 0 <= i < |points| => Emphasis(points[i]));
    assert forall i :: 0 <= i < |points| && NoStarPair(points[i]) && points[i] != [] ==>
             r[i] == [Plain(points[i])] by {
      forall i | 0 <= i < |points| && NoStarPair(points[i]) && points[i] != [] {
        EmphasisWithoutPairs(points[i]);
      }
    }
    r
  }

  /** The `items` entries, each with its double quotes removed. */
  function StripAll(items: seq<string>): (r: seq<string>)
    ensures |r| == |items|
    ensures forall i :: 0 <= i < |items| ==> r[i] == StripQuotes(items[i])
    ensures forall i :: 0 <= i < |items| ==> '"' !in r[i]
    ensures forall i, c :: 0 <= i < |items| && c != '"' ==> multiset(r[i])[c] == multiset(items[i])[c]
  {
    seq(|items|, i requires 0 <= i < |items| => StripQuotes(items[i]))
  }

  /** The answers listed under a stack-group question: the answer points when
      present (even an empty array), else the single answer when truthy, else
      nothing. */
  function AnswerList(q: StackQ): (r: seq<string>)
    ensures Present(q.answerPoints) ==> r == q.answerPoints.value
    ensures !Present(q.answerPoints) ==> |r| <= 1
    ensures !Present(q.answerPoints) ==> (r != [] <==> TruthyStr(q.answer))
    ensures !Present(q.answerPoints) && r != [] ==> Some(r[0]) == q.answer
  {
    if Present(q.answerPoints) || TruthyStr(q.answer) then
      (if Present(q.answerPoints) then q.answerPoints.value else [q.answer.value])
    else []
  }

  /** The stack-group questions, numbered from one, in their order. */
  function StackEntries(qs: seq<StackQ>): (r: seq<StackEntry>)
    ensures |r| == |qs|
    ensures forall i :: 0 <= i < |qs| ==>
              r[i].number == i + 1 && r[i].question == qs[i].question && r[i].answers == AnswerList(qs[i])
  {
    seq(|qs|, i requires 0 <= i < |qs| => StackEntry(i + 1, qs[i].question, AnswerList(qs[i])))
  }

  /** The free text paragraph, drawn when the text is truthy. */
  function TextSection(b: Block): (r: Option<string>)
    ensures r.Some? <==> TruthyStr(b.text)
    ensures r.Some? ==> r == b.text
  {
    if TruthyStr(b.text) then b.text else None
  }

  /** The bullet list of `points`, drawn whenever the array is present, one
      emphasised row per point in order. */
  function BulletsSection(b: Block): (r: Option<seq<seq<Span>>>)
    ensures r.Some? <==> Present(b.points)
    ensures r.Some? ==>
              |r.value| == |b.points.value|
              && forall i :: 0 <= i < |b.points.value| ==>
                   r.value[i] == Emphasis(b.points.value[i]) && Flatten(r.value[i]) == b.points.value[i]
  {
    if Present(b.points) then Some(EmphasizeAll(b.points.value)) else None
  }

  /** The quoted `items`, drawn whenever the array is present, each entry without
      its double quotes. */
  function QuotesSection(b: Block): (r: Option<seq<string>>)
    ensures r.Some? <==> Present(b.items)
    ensures r.Some? ==> r.value == StripAll(b.items.value)
    ensures r.Some? ==>
              |r.value| == |b.items.value|
              && forall i :: 0 <= i < |b.items.value| ==> '"' !in r.value[i]
    ensures r.Some? ==>
              forall i, c :: 0 <= i < |b.items.value| && c != '"' ==>
                multiset(r.value[i])[c] == multiset(b.items.value[i])[c]
  {
    if Present(b.items) then Some(StripAll(b.items.value)) else None
  }
}
