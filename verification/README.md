# Interview prep app: a Dafny model of its decision layer

The interview prep app is a single-page React app. It sends a job description, a résumé, company notes and free notes to a text generator. It receives an interview guide: a document of sections, each holding a list of loosely typed content blocks. It then draws the blocks as cards. Two versions of the app exist side by side. `src/App.jsx` is the older one. `src/main.jsx` is the newer one, which adds refinement sections and a print view.

This project models the pure logic between the generator's answer and the screen:

- the JavaScript value rules the renderers rely on: optional fields, truthiness, `||` fallbacks and `trim` (`js.dfy`);
- the two string rewrites applied to list entries: quote removal and the `**bold**` rewrite, modelled as typed spans (`markup.dfy`);
- the block record and the newer renderer's shape tests (`blocks.dfy`);
- the card sections shared by both renderers (`view.dfy`);
- the newer renderer with its content filter (`render_main.dfy`);
- the older renderer, which dispatches on the tag alone (`render_app.dfy`);
- the decimal text of a timestamp (`decimal.dfy`);
- the document, the active-section lookup, the refinement merge and the print view (`document.dfy`);
- the generate and refine handlers as functions from state to state plus effects (`handlers.dfy`).

A card is a record with one optional field per section, in display order. `None` means the section is not drawn. Each section is computed by its own function, and each of those functions carries that section's contract. Calls to the generator are not made. Their settled result is an argument: `Success(value)`, `Failure` (an error after the request was sent) or `NotSent` (an error thrown before any request), and the request they stand for is an `Effect`. The millisecond clock is a `nat` argument.

Some behaviour of the code is easy to miss, and the model keeps it:

- The newer renderer's good/bad panel has no line for the question. A QA block shows its question only in the titled header. That header is drawn only for the guide, script and list tags, and it shows the question only when the title is falsy. So a block such as `{type: "guide", question: "Q?", goodAnswer: "A"}` shows `Q?` as its header, while an untagged QA block never shows its question.
- The shapes are not exclusive. A stack group with a question and a good answer draws both the stack sections and the good/bad panel (`MainRender.StackGroupAndQA`).
- A refinement's content is taken as it comes, even when it is missing. The content area then shows the placeholder.
- No step cleans up the generator's response before rendering.

## Model

| member | source | states |
|---|---|---|
| Js.Or | src/main.jsx:169 | the fallback of one string field to another is the first field when that is truthy and the second field otherwise, so it is truthy exactly when either field is |
| Js.OrElse | src/main.jsx:322 | the fallback of a string field to a literal is the field's text when truthy and the literal otherwise, so it is non-empty exactly when the field is truthy or the literal is non-empty |
| Js.TrimStart | src/main.jsx:314 | only white space is removed from the front, and the result starts with a non-white character or is empty |
| Js.TrimEnd | src/main.jsx:314 | only white space is removed from the end, and the result ends with a non-white character or is empty |
| Js.Trim | src/main.jsx:314 | the trimmed query is empty exactly when every character is white space |
| Markup.StripQuotes | src/main.jsx:207 | the displayed item has no `"`, and every other character occurs as often as in the item |
| Markup.StripQuotesConcat | src/main.jsx:207 | stripping distributes over concatenation, so the kept characters stay in order |
| Markup.StripQuotesFixpoint | src/main.jsx:207 | an item without quotes is displayed unchanged |
| Markup.StripQuotesIdempotent | src/main.jsx:207 | stripping twice is the same as stripping once |
| Markup.CloseFrom | src/main.jsx:180 | the lazy search returns a `**` at or after the start, with no line terminator and no earlier `**` before it; it finds nothing in a string without `**` |
| Markup.CaptureIsLazy | src/main.jsx:180 | what lies between an opening `**` and the `**` the lazy search finds is a possible lazy capture |
| Markup.CloseFromLazy | src/main.jsx:180 | started inside a possible capture, the lazy search stops at the first closing `**` |
| Markup.Emphasis | src/main.jsx:180 | writing the spans back gives the original point, each emphasised span holds a possible lazy capture, and no plain span is empty |
| Markup.EmphasisWithoutPairs | src/main.jsx:180 | a point without `**` is one plain span, unchanged |
| Markup.EmphasisLazyMatch | src/main.jsx:180 | `**` + capture + `**` becomes exactly one emphasised span holding the shortest capture, and the scan resumes after it |
| Markup.EmphasisPlainPrefix | src/main.jsx:180 | text without `*` in front of a point that opens with an emphasised span stays one plain span before it |
| Markup.EmphasisAfterPlain | src/main.jsx:180 | a pair after plain text without `*` is matched: the text stays plain, the shortest capture becomes one emphasised span, and the scan resumes after it |
| View.EmphasizeAll | src/main.jsx:177-182 | one row per point, in order; each row is the `**bold**` rewrite of its point and writes back to it; a point without `**` is one plain span |
| View.StripAll | src/main.jsx:204-209 | one entry per item, in order, each the item with its quotes stripped: no quote left and all other characters kept |
| View.AnswerList | src/main.jsx:193 | answer points when present, even when empty; otherwise the single answer when truthy; otherwise nothing |
| View.StackEntries | src/main.jsx:189-191 | one entry per stack question, in order, numbered from one, with that question's answer list |
| View.TextSection | src/main.jsx:173 | the text paragraph is drawn exactly when the text is truthy, and shows the text |
| View.BulletsSection | src/main.jsx:175-184 | the bullet list is drawn exactly when `points` is present, one row per point, each the `**bold**` rewrite of its point |
| View.QuotesSection | src/main.jsx:202-211 | the quote list is drawn exactly when `items` is present: the items with their quotes stripped, one per item, none with a quote and all other characters kept |
| Blocks.HasContent | src/main.jsx:145 | the content check admits a block only when a field it counts is truthy, so `{}` is skipped |
| Blocks.ContentIgnoresFields | src/main.jsx:145 | the tag, title, insight, keywords, bad answer, bad points and answer points do not affect the content check |
| Blocks.IsStackGroup | src/main.jsx:149 | a stack group that lacks the `stack_group` tag always passes the content check |
| Blocks.IsQA | src/main.jsx:150 | a QA block that lacks the `qa` tag has a truthy question and passes the content check |
| Blocks.IsSimpleQuestion | src/main.jsx:151 | a simple question passes the content check, has neither the `qa` nor the `stack_group` tag, and has no good answer and no good or bad answer points |
| MainRender.GoodColumn | src/main.jsx:220-228 | the good points when present; otherwise one line with the good answer when that is truthy and the insight as it is otherwise |
| MainRender.BadColumn | src/main.jsx:237-245 | the bad points when present, otherwise one line with the bad answer as it is |
| MainRender.StackHeaderSection | src/main.jsx:149-162 | the stack header is drawn exactly for the `stack_group` tag or a truthy stack name with a questions array, and shows the stack name |
| MainRender.HeaderSection | src/main.jsx:164-171 | the titled header is drawn only for the guide, script and list tags, with that tag's icon and the title, or the question when the title is falsy |
| MainRender.StackQuestionsSection | src/main.jsx:187-200 | the stack questions are drawn only in a stack group with a questions array, numbered from one, each with its answer list |
| MainRender.PanelSection | src/main.jsx:214-257 | the panel is drawn exactly for the `qa` tag or a truthy question with a good answer or either points array (a bad answer alone does not count); the bad column only for bad points or a truthy bad answer; the block's keywords |
| MainRender.FallbackSection | src/main.jsx:261-273 | the fallback view is drawn exactly for a truthy question in a block that is neither QA nor a stack group; it shows the question, the answer only when truthy, and the answer points |
| MainRender.RenderBlock | src/main.jsx:153-276 | the fallback view never shares a card with the panel or the stack sections; a card is empty exactly when the block has no tag that always draws, and no text, points, items, truthy question, or stack name together with questions |
| MainRender.BadAnswerAloneFallsBack | src/main.jsx:150-151 | an untagged question whose only answer is `badAnswer` gets the fallback view, and the bad answer is not shown |
| MainRender.StackGroupAndQA | src/main.jsx:149-150 | a stack group with a question and a good answer draws both the stack sections and the panel |
| MainRender.CardsAsWritten | src/main.jsx:143-146 | at most one card per block; every block passing the content filter has its card; every card comes from such a block |
| MainRender.CardsAsWrittenConcat | src/main.jsx:143 | the cards of consecutive runs of blocks follow each other |
| MainRender.DroppedBlock | src/main.jsx:145-146 | a block the filter rejects contributes nothing, wherever it stands |
| MainRender.RenderContentAsWritten | src/main.jsx:139 | the placeholder exactly when the data is missing or empty, otherwise the filtered cards |
| MainRender.AnswerOnlyDrawsEmptyCard | src/main.jsx:145-146 | `{answer: "x"}` passes the filter yet its card has no section |
| MainRender.ShownCards | src/main.jsx:145-146 | the corrected filter: no card is empty, and every block that passes the check and draws something has its card |
| MainRender.DropEmpty | src/main.jsx:145-146 | the kept cards are exactly the non-empty ones |
| MainRender.ShownCardsDropEmpty | src/main.jsx:145-146 | the corrected list is the list as written with its empty cards removed, in order |
| MainRender.RenderContent | src/main.jsx:138-146 | the placeholder exactly when the data is missing or empty; otherwise the cards as written without the empty ones |
| MainRender.AnswerOnlyDrawsNoCard | src/main.jsx:145-146 | with the corrected filter, `{answer: "x"}` draws no card |
| AppRender.HeaderSection | src/App.jsx:172-178 | every card has a header showing the title, or the question when the title is falsy; it has an icon exactly for the guide, script, qa and list tags |
| AppRender.PanelSection | src/App.jsx:204-227 | the panel is drawn exactly for the `qa` tag; the good line is the good answer or the insight; the bad line is always drawn, with the bad answer or the stock text; the block's keywords |
| AppRender.RenderBlock | src/App.jsx:171-228 | every card has a header and so is never empty; there are no stack sections and no fallback view; the panel is drawn exactly for the `qa` tag |
| AppRender.RenderContent | src/App.jsx:165-170 | nothing without data; otherwise exactly one card per block, in order, and none of them empty |
| AppRender.SharedSectionsAgree | src/App.jsx:180-202 | both renderers draw text, points and items alike, and headers alike for the guide, script and list tags |
| AppRender.TaggedQAPanelsAgree | src/App.jsx:204-216 | a `qa` block with a truthy bad answer and no good or bad answer points gets the same panel from both renderers |
| AppRender.MissingBadAnswer | src/App.jsx:216 | without a bad answer, the older renderer shows the stock text while the newer one leaves the bad column out |
| AppRender.UntaggedQuestionPanel | src/App.jsx:204 | an untagged question with a good answer has a panel only in the newer renderer |
| Numerals.DigitChar | src/main.jsx:319 | the character of a digit is a digit of that value |
| Numerals.Decimal | src/main.jsx:319 | the numeral is non-empty, digits only, with no leading zero unless the number is zero |
| Numerals.DecimalRoundTrip | src/main.jsx:319 | reading the numeral back gives the number |
| Numerals.DecimalInjective | src/main.jsx:319 | different numbers have different numerals |
| Doc.FindSection | src/main.jsx:345 | the index of the first section with the id, or none exactly when no section has it |
| Doc.FindSectionAppend | src/main.jsx:329 | appending a section never changes which earlier section an id finds; the new one is found only when no earlier section has its id |
| Doc.ActiveSection | src/main.jsx:485 | no section without a document; otherwise the first section of the document with the tab's id, or none exactly when no section has it |
| Doc.ActiveContent | src/App.jsx:268-271 | the empty list without a document or a matching section; otherwise the first matching section's content, or the empty list when that has none |
| Doc.RefineId | src/main.jsx:319 | a refinement id starts with `refine_` |
| Doc.RefineIdInjective | src/main.jsx:319 | refinements made at different milliseconds get different ids |
| Doc.RefineIdNotGenerated | src/main.jsx:38-44 | a refinement id differs from the five section ids the prompt requests |
| Doc.AppendRefinement | src/main.jsx:319-330 | exactly one section appended; meta and earlier sections unchanged; the new section has the refinement id, the payload's content, the refinement mark, and the payload's title or "New Refinement" |
| Doc.ActiveAfterAppend | src/main.jsx:327-333 | with a fresh id, the new tab shows the payload's content |
| Doc.ExistingTabsUnchanged | src/main.jsx:327-330 | every tab that found a section before the merge shows the same content after it |
| Doc.OtherTabsUnchanged | src/main.jsx:327-330 | any tab other than the new id shows the same content after the merge |
| Doc.PrintCard | src/main.jsx:249-256 | a printed card is the drawn card with the keyword chips hidden, and is empty exactly when the drawn card is |
| Doc.PrintBody | src/main.jsx:138-146 | a section prints the placeholder exactly when its content is missing or empty; otherwise one printed card per card of the content filter as written, with no keyword chips |
| Doc.AnswerOnlyPrintsEmptyCard | src/main.jsx:507 | the printed list holds an empty card element for `{answer: "x"}` too |
| Doc.PrintView | src/main.jsx:499-510 | one printed section per section, in order, each with its title and its printed content |
| Doc.PrintViewAfterAppend | src/main.jsx:499-510 | after a merge the print view is the old one plus the new section at the end |
| Handlers.Initial | src/main.jsx:283-295 | the app starts on the input step, with nothing generated, on the intro tab, with every text area and the query empty and an empty content area |
| Handlers.TypeInputs | src/main.jsx:392-397 | typing into the text areas replaces their texts and changes nothing else |
| Handlers.GenerateOnLoadAlerts | src/main.jsx:298 | clicking generate straight after load only raises the alert |
| Handlers.Generate | src/main.jsx:297-311 | an empty job description only alerts and sends nothing; otherwise one request with the inputs, or none when the helper throws for a missing API key; success stores the answer, a guide or a falsy value, clears the error and shows step 2; any error sets the error and keeps step and guide; loading ends cleared |
| Handlers.BlankJobDescriptionDispatches | src/main.jsx:298 | a job description of white space only passes the guard, raises no alert, and is sent whenever a request goes out |
| Handlers.MissingKeySendsNothing | src/main.jsx:21 | without an API key no request is sent, and the state ends as after a failed request |
| Handlers.GenerateFailureStable | src/App.jsx:253-265 | a failed generation changes only the error message, so failing again changes nothing more |
| Handlers.MainArea | src/main.jsx:384-417 | the main area shows the input form exactly on step 1, the guide exactly on step 2 with a stored guide, and nothing otherwise |
| Handlers.FalsyAnswerShowsNothing | src/main.jsx:303-304 | a falsy answer opens step 2 with no error, and the main area shows nothing |
| Handlers.GenerateFromInitial | src/App.jsx:257-259 | a successful first generation after typing a job description opens step 2 on the intro tab, showing the guide and its intro content |
| Handlers.Refine | src/main.jsx:313-339 | a blank query does nothing; without an API key or without a guide only the failure alert; otherwise one request with role and query; failure alerts and keeps the state; success appends the section, selects its tab and clears the query |
| Handlers.RefineShowsNewSection | src/main.jsx:319-333 | after a successful refinement with a fresh id, the content area shows the new content and the guide has one more section |
| Handlers.TwoRefinementsReachable | src/main.jsx:319-333 | after two refinements the first one's tab still shows its content; in the same millisecond the second refinement's tab shows the first content, so the second is hidden |

## Left out

- The generator calls (`callGeminiAPI`, `callRefinementAPI`, `fetchGemini`) are network I/O and JSON parsing. Their settled result is an `Outcome` argument. A missing API key is `NotSent`: the helper throws before any request, so no request effect is listed. An HTTP error or a parse error counts as `Failure`, after the request. So does a `null` refinement response, because reading its title throws. A refinement response that is a string, a number, a boolean or an array has neither a title nor content. It is `Success(Payload(None, None))`.
- The prompt texts are opaque strings with no behaviour.
- `Date.now()` is a clock. It is the `now` argument of `Refine`. The code does not ensure a fresh id, so the lemmas that need one take it as a precondition.
- `Numerals.Decimal` does not model the exponent form JavaScript uses for numbers of 10^21 and above. A time value cannot reach that size.
- Markup.Emphasis: its contract alone does not state which pairs are matched; a single plain span would also meet it. The lemmas pin the matches down for a point without `**` (`EmphasisWithoutPairs`), for a pair at the start (`EmphasisLazyMatch`), and for a pair after plain text without `*` (`EmphasisAfterPlain`). A pair after plain text that holds a `*` is not covered by a lemma.
- Plain text in a point is injected as HTML, so markup inside a point is interpreted by the browser. The spans do not model HTML.
- Icons, CSS classes, animations, the print stylesheet and `window.print()` are presentation only. The one print rule that hides content, the hidden keyword chips, is modelled by `Doc.PrintCard`. Header icons are kept as a tag, because they follow the block's tag.
- The sidebar's icon choice and the refinement styling of the section title are presentation only.
- The loading and refining flags only gate the buttons. The handlers are modelled run to completion, so an overlapping second click or Enter key press is not modelled.
- `console.error` and the React bootstrap are side effects with no bearing on state. `alert` is modelled as an effect.
- "Start new" and clicking a tab are plain setters of the step and of the active tab, and are not modelled.
- The printed role and date line of the print view is presentation of `meta` only.
- Handlers.Generate: a truthy answer that is not a guide is not modelled, such as a number, a string, an array, or an object without `meta` or without a `sections` array. The code stores it and shows step 2, and rendering then throws at `generatedData.meta.role` (src/main.jsx:423) or at `sections.map`. A falsy answer is modelled as `Success(None)`.
- Field values of unexpected JSON types are not modelled, such as a number in a string field or an object in an array field. Every field is an optional string, or an optional array of strings or stack questions.

## Findings

| source | as written | input that shows it | evidently intended | confidence | as-written member | corrected member |
|---|---|---|---|---|---|---|
| src/main.jsx:145-146 | the content filter admits a block when any of nine fields is truthy, but `answer`, `goodAnswer`, `goodAnswerPoints`, `stackName` and `questions` each draw nothing on their own, so the list shows an empty white card | `{answer: "x"}` (likewise `{questions: []}` or `{goodAnswer: "x"}`) | only a block that draws something gets a card, as the filter's own comment says | not executed | MainRender.AnswerOnlyDrawsEmptyCard | MainRender.RenderContent |
