/** The two event handlers as functions from the app state to the next state and
    the side effects they cause. A backend call is not performed here: its
    result is an argument, and the request it stands for is an effect.
 */
module Handlers {
  import opened Js
  import opened Blocks
  import opened Doc

  /** The four text areas of the input step. */
  datatype Inputs = Inputs(jd: string, resume: string, company: string, notes: string)

  /** What a handler does besides changing state: an alert box, or one request to
      the generator (the guide, or a refinement section). */
  datatype Effect =
    | Alert(message: string)
    | GenerateRequest(inputs: Inputs)
    | RefineRequest(role: Option<string>, query: string)

  /** The settled result of a backend call: a value, an error thrown after the
      request was sent (an HTTP or parse error), or an error thrown by the
      helper before any request (no API key configured). */
  datatype Outcome<T> = Success(value: T) | Failure | NotSent

  /** The state of the app. The older app has no refinement, so its
      `refining` and `refineQuery` stay at their initial values. */
  datatype Session = Session(
    step: nat,
    loading: bool,
    error: Option<string>,
    activeTab: string,
    data: Option<Document>,
    refining: bool,
    refineQuery: string,
    inputs: Inputs)

  /** The two texts the generate handler shows, which differ between the apps. */
  datatype Messages = Messages(missingJd: string, failed: string)

  const NewerMessages := Messages("Please provide at least a Job Description.",
                                  "Failed to generate. Please try again.")

  const OlderMessages := Messages("Please provide at least a Job Description to generate a script.",
                                  "Failed to generate script. Please try again later.")

  const RefineFailedMessage := "Refinement failed. Try again."

  /** The four text areas as they are on load. */
  const NoInputs := Inputs("", "", "", "")

  /** The state on load: the input step, nothing generated, the intro tab, and
      every text area and the refinement query empty. */
  function Initial(): (r: Session)
    ensures r.step == 1 && r.data.None? && r.error.None? && !r.loading && r.activeTab == "intro"
    ensures r.inputs == NoInputs && r.refineQuery == "" && !r.refining
    ensures ActiveContent(r.data, r.activeTab) == []
  {
    Session(1, false, None, "intro", None, false, "", NoInputs)
  }

  /** Typing into the text areas: each one's setter replaces its text, and
      nothing else changes. */
  function TypeInputs(s: Session, inputs: Inputs): (r: Session)
    ensures r.inputs == inputs
    ensures r.(inputs := s.inputs) == s
  {
    s.(inputs := inputs)
  }

  /** `handleGenerate`, run to completion. An empty job description only raises
      the alert. Otherwise one request is sent with the four inputs as they are,
      unless the helper throws before sending it; on success the answer is
      stored and the output step shown, on any error the error message is set
      and the step and guide are kept. Either way the loading flag ends cleared.
      A successful answer is a guide, or `None` for a falsy answer (`null`,
      `false`, `0`, `""`), which is stored just the same. */
  function Generate(s: Session, msgs: Messages, outcome: Outcome<Option<Document>>): (r: (Session, seq<Effect>))
    ensures s.inputs.jd == "" ==> r == (s, [Alert(msgs.missingJd)])
    ensures s.inputs.jd != "" && !outcome.NotSent? ==> r.1 == [GenerateRequest(s.inputs)]
    ensures s.inputs.jd != "" && outcome.NotSent? ==> r.1 == []
    ensures s.inputs.jd != "" ==>
              !r.0.loading && r.0.inputs == s.inputs && r.0.activeTab == s.activeTab
              && r.0.refining == s.refining && r.0.refineQuery == s.refineQuery
    ensures s.inputs.jd != "" && outcome.Success? ==>
              r.0.data == outcome.value && r.0.step == 2 && r.0.error.None?
    ensures s.inputs.jd != "" && !outcome.Success? ==>
              r.0.error == Some(msgs.failed) && r.0.step == s.step && r.0.data == s.data
  {
    if s.inputs.jd == "" then (s, [Alert(msgs.missingJd)])
    else
      var started := s.(loading := true, error := None);
      var settled :=
        match outcome
        case Success(answer) => started.(data := answer, step := 2)
        case _ => started.(error := Some(msgs.failed));
      (settled.(loading := false), if outcome.NotSent? then [] else [GenerateRequest(s.inputs)])
  }

  /** The guard tests the job description for emptiness only: one made of white
      space alone passes it, raises no alert, and is sent whenever a request
      goes out. */
  lemma BlankJobDescriptionDispatches(s: Session, msgs: Messages, outcome: Outcome<Option<Document>>)
    requires s.inputs.jd != "" && Blank(s.inputs.jd)
    ensures Alert(msgs.missingJd) !in Generate(s, msgs, outcome).1
    ensures !outcome.NotSent? ==> Generate(s, msgs, outcome).1 == [GenerateRequest(s.inputs)]
    ensures Trim(s.inputs.jd) == []
  {
  }

  /** Without an API key nothing is sent, and the state ends as after a failed
      request. */
  lemma MissingKeySendsNothing(s: Session, msgs: Messages)
    requires s.inputs.jd != ""
    ensures Generate(s, msgs, NotSent) == (Generate(s, msgs, Failure).0, [])
  {
  }

  /** A failed generation leaves everything as it was except the error message,
      so trying again and failing again changes nothing further. */
  lemma GenerateFailureStable(s: Session, msgs: Messages)
    requires s.inputs.jd != "" && !s.loading
    ensures var r := Generate(s, msgs, Failure).0;
            r == s.(error := Some(msgs.failed)) && Generate(r, msgs, Failure).0 == r
  {
  }

  /** Clicking generate straight after load only raises the alert. */
  lemma GenerateOnLoadAlerts(msgs: Messages, outcome: Outcome<Option<Document>>)
    ensures Generate(Initial(), msgs, outcome) == (Initial(), [Alert(msgs.missingJd)])
  {
  }

  /** What the main area shows: the input form on step 1, the guide on step 2
      when one is stored, and nothing at all otherwise. */
  datatype Screen = InputForm | GuideView | Nothing

  function MainArea(s: Session): (r: Screen)
    ensures r == InputForm <==> s.step == 1
    ensures r == GuideView <==> s.step == 2 && s.data.Some?
    ensures r == Nothing <==> s.step != 1 && (s.step != 2 || s.data.None?)
  {
    if s.step == 1 then InputForm
    else if s.step == 2 && s.data.Some? then GuideView
    else Nothing
  }

  /** A falsy answer is stored as it is: the output step opens with no error,
      yet the main area shows neither the form nor a guide. */
  lemma FalsyAnswerShowsNothing(s: Session, msgs: Messages)
    requires s.inputs.jd != ""
    ensures var r := Generate(s, msgs, Success(None));
            r.1 == [GenerateRequest(s.inputs)] && r.0.step == 2 && r.0.error.None? && MainArea(r.0) == Nothing
  {
  }

  /** A successful generation after typing a job description into the fresh app
      opens the output step on the intro tab, showing the guide and the content
      of its first `intro` section. */
  lemma GenerateFromInitial(inputs: Inputs, msgs: Messages, doc: Document)
    requires inputs.jd != ""
    ensures var r := Generate(TypeInputs(Initial(), inputs), msgs, Success(Some(doc))).0;
            r.step == 2 && r.activeTab == "intro" && MainArea(r) == GuideView
            && ActiveContent(r.data, r.activeTab) == ActiveContent(Some(doc), "intro")
  {
  }

  /** `handleRefine` of the newer app, run to completion, at millisecond `now`.
      A query that is empty after trimming does nothing. Without an API key, or
      without a guide, the call throws before any request, and the failure alert
      is shown. Otherwise one request carries the guide's role and the query; a
      failure shows the alert and keeps the state; a success appends the
      refinement section, selects its tab and clears the query. The refining
      flag ends cleared. */
  function Refine(s: Session, now: nat, outcome: Outcome<Payload>): (r: (Session, seq<Effect>))
    ensures Blank(s.refineQuery) ==> r == (s, [])
    ensures !Blank(s.refineQuery) && (s.data.None? || outcome.NotSent?) ==>
              r == (s.(refining := false), [Alert(RefineFailedMessage)])
    ensures !Blank(s.refineQuery) && s.data.Some? && !outcome.NotSent? ==>
              |r.1| >= 1 && r.1[0] == RefineRequest(s.data.value.meta.role, s.refineQuery)
    ensures !Blank(s.refineQuery) && s.data.Some? && outcome.Failure? ==>
              r == (s.(refining := false), [RefineRequest(s.data.value.meta.role, s.refineQuery), Alert(RefineFailedMessage)])
    ensures !Blank(s.refineQuery) && s.data.Some? && outcome.Success? ==>
              && r.1 == [RefineRequest(s.data.value.meta.role, s.refineQuery)]
              && r.0.data == Some(AppendRefinement(s.data.value, now, outcome.value))
              && r.0.activeTab == RefineId(now) && r.0.refineQuery == "" && !r.0.refining
              && r.0.step == s.step && r.0.error == s.error && r.0.inputs == s.inputs && r.0.loading == s.loading
  {
    if Trim(s.refineQuery) == [] then (s, [])
    else
      var started := s.(refining := true);
      match s.data
      case None => (started.(refining := false), [Alert(RefineFailedMessage)])
      case Some(doc) =>
        var request := RefineRequest(doc.meta.role, s.refineQuery);
        match outcome
        case Failure => (started.(refining := false), [request, Alert(RefineFailedMessage)])
        case NotSent => (started.(refining := false), [Alert(RefineFailedMessage)])
        case Success(p) =>
          var merged := started.(data := Some(AppendRefinement(doc, now, p)), refineQuery := "", activeTab := RefineId(now));
          (merged.(refining := false), [request])
  }

  /** After a successful refinement whose id is fresh, the content area shows the
      new section's content, and the guide has one more section. */
  lemma RefineShowsNewSection(s: Session, now: nat, p: Payload)
    requires !Blank(s.refineQuery) && s.data.Some? && FreshId(s.data.value, RefineId(now))
    ensures var r := Refine(s, now, Success(p)).0;
            r.data.Some? && |r.data.value.sections| == |s.data.value.sections| + 1
            && ActiveContent(r.data, r.activeTab) == p.content.GetOr([])
  {
    ActiveAfterAppend(s.data.value, now, p);
  }

  /** After two successful refinements the first one's tab still shows its
      content. When both happen in the same millisecond, the second gets the
      same id, so its own tab finds the first section and shows the first
      content: the second refinement is hidden. */
  lemma TwoRefinementsReachable(s: Session, t1: nat, p1: Payload, q: string, t2: nat, p2: Payload)
    requires !Blank(s.refineQuery) && !Blank(q) && s.data.Some?
    requires FreshId(s.data.value, RefineId(t1))
    ensures var a := Refine(s, t1, Success(p1)).0;
            var b := Refine(a.(refineQuery := q), t2, Success(p2)).0;
            ActiveContent(b.data, RefineId(t1)) == p1.content.GetOr([])
            && (t1 == t2 ==> ActiveContent(b.data, b.activeTab) == p1.content.GetOr([]))
  {
    var a := Refine(s, t1, Success(p1)).0;
    ActiveAfterAppend(s.data.value, t1, p1);
    ExistingTabsUnchanged(a.data.value, t2, p2, RefineId(t1));
  }
}
