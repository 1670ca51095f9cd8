/** The web front end: the keys it keeps in the browser session, the history of
    workflow steps it records while a run streams its node outputs, how it
    classifies the end of a run, and the five-state page machine
    (input, processing, clarification, completed, error) driven by the buttons.
    Rendering, styling, timestamps and the event loop are left out; a run of the
    graph is given as the node outputs it streamed and the exception, if any,
    that ended it. */
module StreamlitApp {
  import opened Wrappers
  import opened Text
  import opened StateScope
  import opened Workflow
  import opened Report
  import opened Seqs

  // ---------------------------------------------------------------------------
  // Clarification heuristics and the outcome of a run

  const ClarificationPhrases: seq<string> := ["need more", "please provide", "clarify", "specify", "additional"]

  /** A message reads as a request for clarification when, stripped, it ends with a
      question mark, or when its lower-cased text contains one of the phrases. */
  predicate IsClarification(content: string) {
    EndsWith(Strip(content), "?")
    || Contains(Lower(content), "need more")
    || Contains(Lower(content), "please provide")
    || Contains(Lower(content), "clarify")
    || Contains(Lower(content), "specify")
    || Contains(Lower(content), "additional")
  }

  /** A message reads as a request for clarification exactly when it ends with a
      question mark once stripped, or when one of the phrases occurs somewhere in its
      lower-cased text. */
  lemma IsClarificationIff(content: string)
    ensures IsClarification(content) <==>
              EndsWith(Strip(content), "?")
              || (exists i :: OccursAt(Lower(content), "need more", i))
              || (exists i :: OccursAt(Lower(content), "please provide", i))
              || (exists i :: OccursAt(Lower(content), "clarify", i))
              || (exists i :: OccursAt(Lower(content), "specify", i))
              || (exists i :: OccursAt(Lower(content), "additional", i))
  {
    var low := Lower(content);
    ContainsIff(low, "need more");
    ContainsIff(low, "please provide");
    ContainsIff(low, "clarify");
    ContainsIff(low, "specify");
    ContainsIff(low, "additional");
  }

  /** The phrases are matched whatever their case: a message with any capitalisation
      of one of them somewhere in it reads as a request for clarification. */
  lemma {:induction false} PhraseInAnyCaseIsClarification(content: string, k: nat, i: nat)
    requires k < |ClarificationPhrases|
    requires i + |ClarificationPhrases[k]| <= |content|
    requires Lower(content[i..i + |ClarificationPhrases[k]|]) == ClarificationPhrases[k]
    ensures IsClarification(content)
  {
    var p := ClarificationPhrases[k];
    var low := Lower(content);
    assert low[i..i + |p|] == Lower(content[i..i + |p|]);
    assert OccursAt(low, p, i);
    ContainsIff(low, p);
  }

  /** What the workflow runner returns: a request for more information carrying the
      last message, a completed run with the report if it had one, or an error. */
  datatype WorkflowResult =
    | NeedsClarification(message: string)
    | CompletedResult(finalReport: Option<string>)
    | ErrorResult(error: string)

  predicate HasMessages(u: Update) {
    u.messages.Some? && |u.messages.value| > 0
  }

  function LastContent(u: Update): string
    requires HasMessages(u)
  {
    u.messages.value[|u.messages.value| - 1].content
  }

  /** The classification of the last node output of a run. */
  function Classify(finalState: Option<Update>): (r: WorkflowResult)
    ensures r.NeedsClarification? <==> finalState.Some? && HasMessages(finalState.value) && finalState.value.finalReport.None?
    ensures r.NeedsClarification? ==> r.message == LastContent(finalState.value)
    ensures r.CompletedResult? && r.finalReport.Some? <==>
              finalState.Some? && HasMessages(finalState.value) && finalState.value.finalReport.Some?
    ensures r.CompletedResult? && r.finalReport.Some? ==> r.finalReport == finalState.value.finalReport
    ensures !r.ErrorResult?
  {
    if finalState.Some? && HasMessages(finalState.value) then
      if finalState.value.finalReport.None? then NeedsClarification(LastContent(finalState.value))
      else CompletedResult(finalState.value.finalReport)
    else CompletedResult(None)
  }

  /** The front end classifies a run exactly as the terminal driver does. */
  lemma ClassifyAgreesWithDriver(finalState: Option<Update>)
    ensures Classify(finalState).NeedsClarification? <==> Assess(finalState).AskForMore?
    ensures Classify(finalState).NeedsClarification? ==>
              Classify(finalState).message == Assess(finalState).shown
    ensures forall r :: Classify(finalState) == CompletedResult(Some(r)) <==> Assess(finalState) == ShowReport(r)
    ensures Classify(finalState) == CompletedResult(None) <==> Assess(finalState) == Finish
  {
  }

  /** A run as the front end sees it: the node outputs streamed, in order, and the
      message of the exception that ended it, if one did. */
  datatype AgentRun = AgentRun(events: seq<Event>, raised: Option<string>)

  /** What the workflow runner returns for a run. */
  function WorkflowOutcome(run: AgentRun): (r: WorkflowResult)
    ensures run.raised.Some? ==> r == ErrorResult(run.raised.value)
    ensures run.raised.None? ==> r == Classify(LastOutput(run.events))
  {
    if run.raised.Some? then ErrorResult(run.raised.value) else Classify(LastOutput(run.events))
  }

  // ---------------------------------------------------------------------------
  // Workflow history

  datatype StepStatus = StepProcessing | StepCompleted | StepWarning | StepError

  /** One entry of the workflow history (its timestamp is left out). */
  datatype Step = Step(name: string, status: StepStatus, message: string)

  /** The entries for the clarification node's last message: an analysis of the claim,
      or a note that more information is being requested. */
  function ClarifySteps(content: string): (steps: seq<Step>)
    ensures |steps| == 2
    ensures steps[1].status == (if IsClarification(content) then StepWarning else StepCompleted)
  {
    [Step("Analyzing Claim", StepProcessing, "Examining the claim for clarity and specificity..."),
     ClarifyVerdict(content, IsClarification(content))]
  }

  /** The second entry for the clarification node, given whether its message reads as
      a request for clarification. */
  function ClarifyVerdict(content: string, asks: bool): Step {
    if !asks then Step("Claim Analysis", StepCompleted, "Analysis: " + content)
    else Step("Clarification Request", StepWarning, "System requesting more information...")
  }

  /** The entries for the brief node's output, naming the claim when it has one. */
  function BriefSteps(claim: Option<string>): (steps: seq<Step>)
    ensures |steps| == if claim.Some? then 3 else 2
  {
    [Step("Generating Brief", StepProcessing, "Creating structured fact-check brief..."),
     Step("Claim Statement", StepCompleted, "Fact-Check Brief Generated")]
    + (if claim.Some? then [Step("Claim Extraction", StepCompleted, "Claim to verify: " + claim.value)] else [])
  }

  /** The entry for the report node's last message: the saved-to notice itself once the
      message says where the report was saved. */
  function ReportSteps(content: string): (steps: seq<Step>)
    ensures |steps| == 1
    ensures steps[0].status == StepCompleted <==> Contains(content, "saved to:")
  {
    if Contains(content, "saved to:") then [Step("Report Generation", StepCompleted, content)]
    else [Step("Report Generation", StepProcessing, "Generating fact-check report...")]
  }

  /** Whatever the path, the report node's notice contains "saved to:". */
  lemma NoticeSaysSavedTo(path: string)
    ensures Contains(CompletionPrefix + path, "saved to:")
  {
    var notice := CompletionPrefix + path;
    assert CompletionPrefix[35..44] == "saved to:";
    assert notice[35..44] == CompletionPrefix[35..44];
    assert OccursAt(notice, "saved to:", 35);
    ContainsIff(notice, "saved to:");
  }

  /** The report node's own notice says where the report was saved, so the front end
      records the report generation as completed, with that notice. */
  lemma ReportNoticeRecordedAsCompleted(content: string)
    ensures HasMessages(ReportUpdate(content))
    ensures ReportSteps(LastContent(ReportUpdate(content)))
         == [Step("Report Generation", StepCompleted, LastContent(ReportUpdate(content)))]
  {
    var path := ReportUpdate(content).reportFilepath.value;
    assert LastContent(ReportUpdate(content)) == CompletionPrefix + path;
    NoticeSaysSavedTo(path);
  }

  /** The entries recorded for a node output that carries messages. */
  function NodeSteps(n: Node, u: Update): (steps: seq<Step>)
    requires HasMessages(u)
    ensures |steps| == 0 <==> n == Start || n == End
  {
    match n
    case Clarify => ClarifySteps(LastContent(u))
    case WriteBrief => BriefSteps(u.claimStatement)
    case Supervisor => [Step("Research Phase", StepProcessing, "Fact-checking in progress...")]
    case FinalReport => ReportSteps(LastContent(u))
    case _ => []
  }

  /** The entries recorded for one streamed node output: a "Processing" entry naming
      the node, then the node's own entries when its output carries messages. */
  function EventSteps(e: Event): (steps: seq<Step>)
    ensures |steps| >= 1 && steps[0] == Step("Processing", StepProcessing, "Running: " + NodeName(e.node))
    ensures !HasMessages(e.output) ==> |steps| == 1
  {
    [Step("Processing", StepProcessing, "Running: " + NodeName(e.node))]
    + (if HasMessages(e.output) then NodeSteps(e.node, e.output) else [])
  }

  /** The entry that closes a run's history, for the runner's result. */
  function ClosingStep(result: WorkflowResult): (step: Step)
    ensures step.status == StepError <==> result.ErrorResult?
    ensures step.status == StepWarning <==> result.NeedsClarification?
    ensures step.status == StepCompleted <==> result.CompletedResult?
  {
    match result
    case ErrorResult(e) => Step("Error", StepError, "Workflow failed: " + e)
    case NeedsClarification(m) => Step("Clarification Needed", StepWarning, "System needs more information: " + m)
    case CompletedResult(Some(_)) => Step("Workflow Complete", StepCompleted, "Fact-check completed successfully")
    case CompletedResult(None) => Step("Workflow Complete", StepCompleted, "Fact-check workflow completed")
  }

  // ---------------------------------------------------------------------------
  // The session and its transitions

  /** The page the front end shows (`workflow_state`). */
  datatype WorkflowState = Input | Processing | Clarification | Completed | Error

  /** The session keys; `None` when the key is not in the session. `finalReport` and
      `claimStatement` hold `Some(None)` when the key is there with the value None. */
  datatype SessionView = SessionView(
    workflowState: Option<WorkflowState>,
    messages: Option<seq<string>>,
    finalReport: Option<Option<string>>,
    claimStatement: Option<Option<string>>,
    workflowHistory: Option<seq<Step>>,
    processing: Option<bool>,
    clarificationMessage: Option<string>)

  /** A session without any key: a new browser session, or one just reset. */
  const EmptySession := SessionView(None, None, None, None, None, None, None)

  /** The six keys the page relies on are all in the session. */
  predicate IsInitialized(v: SessionView) {
    v.workflowState.Some? && v.messages.Some? && v.finalReport.Some?
    && v.claimStatement.Some? && v.workflowHistory.Some? && v.processing.Some?
  }

  /** `initialize_session_state`: each missing key gets its default, and every key
      already there keeps its value. */
  function Initialized(v: SessionView): (w: SessionView)
    ensures IsInitialized(w)
    ensures w.workflowState == (if v.workflowState.Some? then v.workflowState else Some(Input))
    ensures w.messages == (if v.messages.Some? then v.messages else Some([]))
    ensures w.finalReport == (if v.finalReport.Some? then v.finalReport else Some(None))
    ensures w.claimStatement == (if v.claimStatement.Some? then v.claimStatement else Some(None))
    ensures w.workflowHistory == (if v.workflowHistory.Some? then v.workflowHistory else Some([]))
    ensures w.processing == (if v.processing.Some? then v.processing else Some(false))
    ensures w.clarificationMessage == v.clarificationMessage
  {
    SessionView(
      if v.workflowState.Some? then v.workflowState else Some(Input),
      if v.messages.Some? then v.messages else Some([]),
      if v.finalReport.Some? then v.finalReport else Some(None),
      if v.claimStatement.Some? then v.claimStatement else Some(None),
      if v.workflowHistory.Some? then v.workflowHistory else Some([]),
      if v.processing.Some? then v.processing else Some(false),
      v.clarificationMessage)
  }

  /** Initialising twice is the same as initialising once, and an initialised session
      is left as it is. */
  lemma InitializeIdempotent(v: SessionView)
    ensures Initialized(Initialized(v)) == Initialized(v)
    ensures IsInitialized(v) ==> Initialized(v) == v
  {
  }

  /** `add_workflow_step`: one entry at the end of the history, earlier entries untouched. */
  function WithStep(v: SessionView, step: Step): (w: SessionView)
    requires v.workflowHistory.Some?
    ensures w.workflowHistory.Some? && |w.workflowHistory.value| == |v.workflowHistory.value| + 1
    ensures w.workflowHistory.value[..|v.workflowHistory.value|] == v.workflowHistory.value
    ensures w.workflowHistory.value[|v.workflowHistory.value|] == step
    ensures w.(workflowHistory := v.workflowHistory) == v
  {
    v.(workflowHistory := Some(v.workflowHistory.value + [step]))
  }

  /** What one streamed node output does to the session: its history entries, and,
      for a brief output that carries messages and a claim, the claim statement. */
  function AfterEvent(v: SessionView, e: Event): (w: SessionView)
    requires v.workflowHistory.Some?
    ensures w.workflowHistory == Some(v.workflowHistory.value + EventSteps(e))
    ensures w.claimStatement ==
              if e.node == WriteBrief && HasMessages(e.output) && e.output.claimStatement.Some?
              then Some(Some(e.output.claimStatement.value)) else v.claimStatement
    ensures w.(workflowHistory := v.workflowHistory, claimStatement := v.claimStatement) == v
    ensures IsInitialized(v) ==> IsInitialized(w)
  {
    var claim :=
      if e.node == WriteBrief && HasMessages(e.output) && e.output.claimStatement.Some?
      then Some(Some(e.output.claimStatement.value)) else v.claimStatement;
    v.(workflowHistory := Some(v.workflowHistory.value + EventSteps(e)), claimStatement := claim)
  }

  /** What a stream of node outputs does to the session, output by output. */
  function AfterEvents(v: SessionView, events: seq<Event>): (w: SessionView)
    requires v.workflowHistory.Some?
    ensures w.workflowHistory.Some?
    ensures v.workflowHistory.value <= w.workflowHistory.value
    ensures w.(workflowHistory := v.workflowHistory, claimStatement := v.claimStatement) == v
    ensures IsInitialized(v) ==> IsInitialized(w)
    decreases |events|
  {
    if |events| == 0 then v
    else AfterEvent(AfterEvents(v, events[..|events| - 1]), events[|events| - 1])
  }

  /** The brief's output carries no messages, so the front end neither records the
      claim statement nor adds the brief's entries when that output streams by: only
      the "Processing" entry is added. */
  lemma BriefOutputRecordsNoClaim(v: SessionView, brief: FactCheckClaim)
    requires v.workflowHistory.Some?
    ensures AfterEvent(v, Event(WriteBrief, AgentScope.WriteClaimStatement(brief)))
         == WithStep(v, Step("Processing", StepProcessing, "Running: " + NodeName(WriteBrief)))
  {
    var e := Event(WriteBrief, AgentScope.WriteClaimStatement(brief));
    assert !HasMessages(e.output);
    assert EventSteps(e) == [Step("Processing", StepProcessing, "Running: " + NodeName(WriteBrief))];
  }

  /** `run_fact_check_workflow` on the session: a "Workflow Started" entry, the
      entries of each streamed output, and the entry that closes the run. */
  function AfterWorkflow(v: SessionView, run: AgentRun): (w: SessionView)
    requires v.workflowHistory.Some?
    ensures w.workflowHistory.Some?
    ensures v.workflowHistory.value <= w.workflowHistory.value
    ensures |w.workflowHistory.value| >= |v.workflowHistory.value| + 2
    ensures w.workflowHistory.value[|v.workflowHistory.value|] == Step("Workflow Started", StepProcessing, "Starting fact-check workflow...")
    ensures w.workflowHistory.value[|w.workflowHistory.value| - 1] == ClosingStep(WorkflowOutcome(run))
    ensures w.(workflowHistory := v.workflowHistory, claimStatement := v.claimStatement) == v
    ensures IsInitialized(v) ==> IsInitialized(w)
  {
    var v1 := WithStep(v, Step("Workflow Started", StepProcessing, "Starting fact-check workflow..."));
    var v2 := AfterEvents(v1, run.events);
    WithStep(v2, ClosingStep(WorkflowOutcome(run)))
  }

  /** How the processing page acts on the runner's result. Processing is over on
      every path; the page moves to clarification for a request for more, to
      completed only with a non-empty report, which it stores, and to error otherwise. */
  function ApplyResult(v: SessionView, result: WorkflowResult): (w: SessionView)
    requires v.workflowHistory.Some?
    ensures w.processing == Some(false)
    ensures w.workflowState == Some(Clarification) <==> result.NeedsClarification?
    ensures w.workflowState == Some(Completed) <==>
              result.CompletedResult? && result.finalReport.Some? && result.finalReport.value != ""
    ensures w.workflowState == Some(Completed) ==> w.finalReport == Some(result.finalReport)
    ensures w.workflowState == Some(Clarification) ==> w.clarificationMessage == Some(result.message)
    ensures w.workflowState.Some? && w.workflowState.value in {Clarification, Completed, Error}
    ensures w.messages == v.messages && w.claimStatement == v.claimStatement
    ensures w.workflowHistory.Some? && v.workflowHistory.value <= w.workflowHistory.value
    ensures IsInitialized(v) ==> IsInitialized(w)
  {
    var w :=
      match result
      case NeedsClarification(m) =>
        v.(workflowState := Some(Clarification), clarificationMessage := Some(m))
      case CompletedResult(report) =>
        if report.Some? && report.value != "" then
          v.(finalReport := Some(report), workflowState := Some(Completed))
        else
          WithStep(v.(workflowState := Some(Error)),
                   Step("Warning", StepWarning, "Workflow completed without generating a report"))
      case ErrorResult(e) =>
        if e != "" then v.(workflowState := Some(Error))
        else WithStep(v.(workflowState := Some(Error)), Step("Error", StepError, "Unexpected workflow completion"));
    w.(processing := Some(false))
  }

  /** How the workflow ended for the processing page: the runner returned for this
      run, or the call raised before the runner touched the session. */
  datatype ProcessingRun = Returned(run: AgentRun) | Crashed(error: string)

  /** The processing page's run of the workflow and its handling of the outcome. */
  function AfterProcessing(v: SessionView, p: ProcessingRun): (w: SessionView)
    requires v.workflowHistory.Some?
    ensures w.processing == Some(false)
    ensures p.Crashed? ==> w.workflowState == Some(Error)
    ensures p.Returned? ==> w == ApplyResult(AfterWorkflow(v, p.run), WorkflowOutcome(p.run))
    ensures w.messages == v.messages
    ensures IsInitialized(v) ==> IsInitialized(w)
  {
    match p
    case Crashed(e) =>
      WithStep(v.(workflowState := Some(Error), processing := Some(false)),
               Step("Error", StepError, "Exception during workflow: " + e))
    case Returned(run) => ApplyResult(AfterWorkflow(v, run), WorkflowOutcome(run))
  }

  /** `claim_input.strip()` is empty. */
  predicate IsBlank(s: string) {
    Strip(s) == ""
  }

  /** "Start Fact-Check": with a non-blank claim, the conversation becomes exactly
      that claim, the history is cleared and the page moves to processing; a blank
      claim changes nothing. */
  function AfterStartFactCheck(v: SessionView, claimInput: string): (w: SessionView)
    ensures IsBlank(claimInput) ==> w == v
    ensures !IsBlank(claimInput) ==>
              w == v.(processing := Some(true), workflowState := Some(Processing),
                      messages := Some([claimInput]), workflowHistory := Some([]))
  {
    if !IsBlank(claimInput) then
      v.(processing := Some(true), workflowState := Some(Processing),
         messages := Some([claimInput]), workflowHistory := Some([]))
    else v
  }

  /** "Submit Additional Info": a non-blank answer is added as one more message after
      all earlier ones, the history is kept, and the page moves to processing. */
  function AfterSubmitInfo(v: SessionView, info: string): (w: SessionView)
    requires v.messages.Some?
    ensures IsBlank(info) ==> w == v
    ensures !IsBlank(info) ==> w.messages == Some(v.messages.value + [info])
    ensures !IsBlank(info) ==> w.processing == Some(true) && w.workflowState == Some(Processing)
    ensures !IsBlank(info) ==> w.workflowHistory == v.workflowHistory && w.finalReport == v.finalReport
    ensures !IsBlank(info) ==> w.claimStatement == v.claimStatement && w.clarificationMessage == v.clarificationMessage
  {
    if !IsBlank(info) then
      v.(messages := Some(v.messages.value + [info]), processing := Some(true), workflowState := Some(Processing))
    else v
  }

  /** "Start Over": back to the input page with no messages, no history and no
      clarification message. */
  function AfterStartOver(v: SessionView): (w: SessionView)
    ensures w.workflowState == Some(Input) && w.messages == Some([]) && w.workflowHistory == Some([])
    ensures w.clarificationMessage == Some("")
    ensures w.finalReport == v.finalReport && w.claimStatement == v.claimStatement && w.processing == v.processing
  {
    v.(workflowState := Some(Input), messages := Some([]), workflowHistory := Some([]), clarificationMessage := Some(""))
  }

  /** "Check Another Claim": back to the input page with no messages, no history and
      no report. */
  function AfterCheckAnother(v: SessionView): (w: SessionView)
    ensures w.workflowState == Some(Input) && w.messages == Some([]) && w.workflowHistory == Some([])
    ensures w.finalReport == Some(None)
    ensures w.claimStatement == v.claimStatement && w.processing == v.processing
    ensures w.clarificationMessage == v.clarificationMessage
  {
    v.(workflowState := Some(Input), messages := Some([]), finalReport := Some(None), workflowHistory := Some([]))
  }

  /** "Try Again": back to the input page with no messages and no history. */
  function AfterTryAgain(v: SessionView): (w: SessionView)
    ensures w.workflowState == Some(Input) && w.messages == Some([]) && w.workflowHistory == Some([])
    ensures w.finalReport == v.finalReport && w.claimStatement == v.claimStatement
    ensures w.processing == v.processing && w.clarificationMessage == v.clarificationMessage
  {
    v.(workflowState := Some(Input), messages := Some([]), workflowHistory := Some([]))
  }

  /** The button the user pressed during one pass over the page, if any. */
  datatype UiAction =
    | NoClick
    | ClickResetSession
    | ClickStartFactCheck(claimInput: string)
    | ClickSubmitInfo(info: string)
    | ClickStartOver
    | ClickCheckAnother
    | ClickTryAgain

  /** One pass over the page: initialise the session, then either reset it (the
      sidebar button deletes every key), or act on the section the workflow state
      selects. A button that the current section does not show cannot be pressed,
      so it does nothing. */
  function AfterPage(v: SessionView, action: UiAction, p: ProcessingRun): (w: SessionView)
  {
    var v0 := Initialized(v);
    if action == ClickResetSession then EmptySession
    else
      match v0.workflowState.value
      case Input =>
        if !v0.processing.value && action.ClickStartFactCheck? then AfterStartFactCheck(v0, action.claimInput) else v0
      case Processing =>
        if v0.processing.value then AfterProcessing(v0, p) else v0
      case Clarification =>
        if action.ClickSubmitInfo? then AfterSubmitInfo(v0, action.info)
        else if action == ClickStartOver then AfterStartOver(v0)
        else v0
      case Completed =>
        if action == ClickCheckAnother then AfterCheckAnother(v0) else v0
      case Error =>
        if action == ClickTryAgain then AfterTryAgain(v0) else v0
  }

  /** The invariant the page keeps: a session is either empty or initialised; the run
      flag is only up on the processing page; the processing and clarification pages
      always have a message to show (the processing page shows the last one); and
      the completed page always has a non-empty report. */
  predicate Consistent(v: SessionView) {
    v == EmptySession
    || (IsInitialized(v)
        && (v.processing.value ==> v.workflowState.value == Processing)
        && (v.workflowState.value == Processing || v.workflowState.value == Clarification ==> |v.messages.value| > 0)
        && (v.workflowState.value == Completed ==>
              v.finalReport.value.Some? && v.finalReport.value.value != ""))
  }

  /** Every pass over the page keeps the invariant. */
  lemma AfterPageConsistent(v: SessionView, action: UiAction, p: ProcessingRun)
    requires Consistent(v)
    ensures Consistent(AfterPage(v, action, p))
  {
    var v0 := Initialized(v);
    assert Consistent(v0);
    var w := AfterPage(v, action, p);
    if action == ClickResetSession {
      assert w == EmptySession;
    } else {
      match v0.workflowState.value
      case Input =>
        if !v0.processing.value && action.ClickStartFactCheck? {
          assert w == AfterStartFactCheck(v0, action.claimInput);
          StartFactCheckConsistent(v0, action.claimInput);
        } else {
          assert w == v0;
        }
      case Processing =>
        if v0.processing.value {
          assert w == AfterProcessing(v0, p);
          AfterProcessingConsistent(v0, p);
        } else {
          assert w == v0;
        }
      case Clarification =>
        if action.ClickSubmitInfo? {
          assert w == AfterSubmitInfo(v0, action.info);
          SubmitInfoConsistent(v0, action.info);
        } else if action == ClickStartOver {
          assert w == AfterStartOver(v0);
          BackToInputConsistent(v0);
        } else {
          assert w == v0;
        }
      case Completed =>
        if action == ClickCheckAnother {
          assert w == AfterCheckAnother(v0);
          BackToInputConsistent(v0);
        } else {
          assert w == v0;
        }
      case Error =>
        if action == ClickTryAgain {
          assert w == AfterTryAgain(v0);
          BackToInputConsistent(v0);
        } else {
          assert w == v0;
        }
    }
  }

  /** Starting a check from the input page leaves a consistent session: the run flag
      goes up together with the move to the processing page, which has the claim to
      show. */
  lemma StartFactCheckConsistent(v: SessionView, claimInput: string)
    requires Consistent(v) && IsInitialized(v)
    requires v.workflowState == Some(Input) && v.processing == Some(false)
    ensures Consistent(AfterStartFactCheck(v, claimInput))
  {
  }

  /** Answering on the clarification page leaves a consistent session: the answer is
      one more message to show. */
  lemma SubmitInfoConsistent(v: SessionView, info: string)
    requires Consistent(v) && IsInitialized(v)
    requires v.workflowState == Some(Clarification)
    ensures Consistent(AfterSubmitInfo(v, info))
  {
  }

  /** Going back to the input page from any page but processing leaves a consistent
      session. */
  lemma BackToInputConsistent(v: SessionView)
    requires Consistent(v) && IsInitialized(v)
    requires v.workflowState != Some(Processing)
    ensures Consistent(AfterStartOver(v))
    ensures Consistent(AfterCheckAnother(v))
    ensures Consistent(AfterTryAgain(v))
  {
  }

  /** The processing page leaves a consistent session: its messages are kept, the run
      flag is down, and the completed page is only reached with a non-empty report. */
  lemma AfterProcessingConsistent(v: SessionView, p: ProcessingRun)
    requires IsInitialized(v) && |v.messages.value| > 0
    ensures Consistent(AfterProcessing(v, p))
  {
    var w := AfterProcessing(v, p);
    assert IsInitialized(w) && w.messages == v.messages && w.processing == Some(false);
  }

  /** The completed page is only reached from the processing page, by a run whose
      result carries a non-empty report, and then the session holds that report. */
  lemma CompletedOnlyWithReport(v: SessionView, action: UiAction, p: ProcessingRun)
    requires Initialized(v).workflowState != Some(Completed)
    requires AfterPage(v, action, p).workflowState == Some(Completed)
    ensures Initialized(v).workflowState == Some(Processing)
    ensures p.Returned?
    ensures var r := WorkflowOutcome(p.run);
            r.CompletedResult? && r.finalReport.Some? && r.finalReport.value != ""
            && AfterPage(v, action, p).finalReport == Some(r.finalReport)
  {
  }

  /** A run of the graph above, streamed to the processing page without an exception,
      ends on the clarification page exactly when the model asked for clarification
      (showing its question), and otherwise on the completed page with the report,
      when the report is not empty. */
  lemma ProcessingAGraphRun(v: SessionView, input: seq<Message>, clarify: ClarifyClaim,
                            brief: FactCheckClaim, research: Update, report: string)
    requires v.workflowHistory.Some?
    requires RunGraph(input, clarify, brief, research, report).Ok?
    ensures var run := AgentRun(RunGraph(input, clarify, brief, research, report).value.events, None);
            var w := AfterProcessing(v, Returned(run));
            (w.workflowState == Some(Clarification) <==> clarify.needClarification)
            && (clarify.needClarification ==> w.clarificationMessage == clarify.question)
            && (!clarify.needClarification ==>
                  (w.workflowState == Some(Completed) <==> report != "")
                  && (report != "" ==> w.finalReport == Some(Some(report))))
  {
    var out := RunGraph(input, clarify, brief, research, report).value;
    AssessRunGraph(input, clarify, brief, research, report);
    ClassifyAgreesWithDriver(LastOutput(out.events));
  }

  /** The browser session, whose keys the page reads and writes in place. */
  class Session {
    var workflowState: Option<WorkflowState>
    var messages: Option<seq<string>>
    var finalReport: Option<Option<string>>
    var claimStatement: Option<Option<string>>
    var workflowHistory: Option<seq<Step>>
    var processing: Option<bool>
    var clarificationMessage: Option<string>

    function View(): SessionView
      reads this
    {
      SessionView(workflowState, messages, finalReport, claimStatement,
                  workflowHistory, processing, clarificationMessage)
    }

    /** A new browser session holds no key. */
    constructor ()
      ensures View() == EmptySession
    {
      workflowState, messages, finalReport, claimStatement := None, None, None, None;
      workflowHistory, processing, clarificationMessage := None, None, None;
    }

    method InitializeSessionState()
      modifies this
      ensures View() == Initialized(old(View()))
    {
      if workflowState.None? { workflowState := Some(Input); }
      if messages.None? { messages := Some([]); }
      if finalReport.None? { finalReport := Some(None); }
      if claimStatement.None? { claimStatement := Some(None); }
      if workflowHistory.None? { workflowHistory := Some([]); }
      if processing.None? { processing := Some(false); }
    }

    method AddWorkflowStep(stepName: string, status: StepStatus, message: string)
      requires workflowHistory.Some?
      modifies this
      ensures View() == WithStep(old(View()), Step(stepName, status, message))
    {
      workflowHistory := Some(workflowHistory.value + [Step(stepName, status, message)]);
    }

    method RecordClarify(content: string)
      requires workflowHistory.Some?
      modifies this
      ensures View() == old(View()).(workflowHistory := Some(old(workflowHistory.value) + ClarifySteps(content)))
    {
      var asks := IsClarification(content);
      RecordAnalysis(content, asks);
      assert ClarifySteps(content)
          == [Step("Analyzing Claim", StepProcessing, "Examining the claim for clarity and specificity..."),
              ClarifyVerdict(content, asks)];
    }

    /** The two entries for the clarification node's message, given whether it reads
      as a request for clarification. */
    method RecordAnalysis(content: string, asks: bool)
      requires workflowHistory.Some?
      modifies this
      ensures View() == old(View()).(workflowHistory := Some(old(workflowHistory.value) +
                          [Step("Analyzing Claim", StepProcessing, "Examining the claim for clarity and specificity..."),
                           ClarifyVerdict(content, asks)]))
    {
      ghost var h := workflowHistory.value;
      var analyzing := Step("Analyzing Claim", StepProcessing, "Examining the claim for clarity and specificity...");
      AddWorkflowStep("Analyzing Claim", StepProcessing, "Examining the claim for clarity and specificity...");
      if !asks {
        AddWorkflowStep("Claim Analysis", StepCompleted, "Analysis: " + content);
      } else {
        AddWorkflowStep("Clarification Request", StepWarning, "System requesting more information...");
      }
      assert workflowHistory.value == h + [analyzing] + [ClarifyVerdict(content, asks)];
      AppendAssoc(h, [analyzing], [ClarifyVerdict(content, asks)]);
      assert [analyzing] + [ClarifyVerdict(content, asks)] == [analyzing, ClarifyVerdict(content, asks)];
    }

    method RecordBrief(claim: Option<string>)
      requires workflowHistory.Some?
      modifies this
      ensures View() == old(View()).(workflowHistory := Some(old(workflowHistory.value) + BriefSteps(claim)),
                                     claimStatement := if claim.Some? then Some(claim) else old(claimStatement))
    {
      ghost var h := workflowHistory.value;
      var opening := [Step("Generating Brief", StepProcessing, "Creating structured fact-check brief..."),
                      Step("Claim Statement", StepCompleted, "Fact-Check Brief Generated")];
      AddWorkflowStep("Generating Brief", StepProcessing, "Creating structured fact-check brief...");
      AddWorkflowStep("Claim Statement", StepCompleted, "Fact-Check Brief Generated");
      assert workflowHistory.value == h + opening;
      if claim.Some? {
        claimStatement := Some(Some(claim.value));
        AddWorkflowStep("Claim Extraction", StepCompleted, "Claim to verify: " + claim.value);
        assert workflowHistory.value == h + opening + [Step("Claim Extraction", StepCompleted, "Claim to verify: " + claim.value)];
      }
      assert workflowHistory.value == h + BriefSteps(claim);
    }

    method RecordReportGeneration(content: string)
      requires workflowHistory.Some?
      modifies this
      ensures View() == old(View()).(workflowHistory := Some(old(workflowHistory.value) + ReportSteps(content)))
    {
      if Contains(content, "saved to:") {
        AddWorkflowStep("Report Generation", StepCompleted, content);
      } else {
        AddWorkflowStep("Report Generation", StepProcessing, "Generating fact-check report...");
      }
    }

    /** The entries and the claim statement recorded for one streamed node output. */
    method RecordEvent(e: Event)
      requires workflowHistory.Some?
      modifies this
      ensures View() == AfterEvent(old(View()), e)
    {
      ghost var h := workflowHistory.value;
      var first := Step("Processing", StepProcessing, "Running: " + NodeName(e.node));
      AddWorkflowStep("Processing", StepProcessing, "Running: " + NodeName(e.node));
      ghost var h1 := workflowHistory.value;
      if e.output.messages.Some? && |e.output.messages.value| > 0 {
        var content := e.output.messages.value[|e.output.messages.value| - 1].content;
        match e.node {
          case Clarify =>
            RecordClarify(content);
            assert workflowHistory.value == h1 + ClarifySteps(content);
          case WriteBrief =>
            RecordBrief(e.output.claimStatement);
            assert workflowHistory.value == h1 + BriefSteps(e.output.claimStatement);
          case Supervisor =>
            AddWorkflowStep("Research Phase", StepProcessing, "Fact-checking in progress...");
          case FinalReport =>
            RecordReportGeneration(content);
            assert workflowHistory.value == h1 + ReportSteps(content);
          case _ =>
            assert h1 + [] == h1;
        }
        assert workflowHistory.value == h1 + NodeSteps(e.node, e.output);
        AppendAssoc(h, [first], NodeSteps(e.node, e.output));
      }
      assert workflowHistory.value == h + EventSteps(e);
    }

    /** `run_fact_check_workflow`: records the run in the history while its outputs
      stream by, then classifies its last output. */
    method RunFactCheckWorkflow(run: AgentRun) returns (result: WorkflowResult)
      requires workflowHistory.Some?
      modifies this
      ensures result == WorkflowOutcome(run)
      ensures View() == AfterWorkflow(old(View()), run)
    {
      AddWorkflowStep("Workflow Started", StepProcessing, "Starting fact-check workflow...");
      ghost var started := View();
      var finalState := StreamEvents(run.events);
      ghost var streamed := View();
      assert streamed == AfterEvents(started, run.events);
      if run.raised.Some? {
        AddWorkflowStep("Error", StepError, "Workflow failed: " + run.raised.value);
        return ErrorResult(run.raised.value);
      }
      result := ClassifyFinalState(finalState);
    }

    /** The stream of node outputs: each is recorded as it arrives, and the last one
      is kept. */
    method StreamEvents(events: seq<Event>) returns (finalState: Option<Update>)
      requires workflowHistory.Some?
      modifies this
      ensures finalState == LastOutput(events)
      ensures View() == AfterEvents(old(View()), events)
    {
      ghost var started := View();
      finalState := None;
      var k := 0;
      while k < |events|
        invariant 0 <= k <= |events|
        invariant View() == AfterEvents(started, events[..k])
        invariant finalState == LastOutput(events[..k])
      {
        RecordEvent(events[k]);
        finalState := Some(events[k].output);
        assert events[..k + 1][..k] == events[..k];
        k := k + 1;
      }
      assert events[..k] == events;
    }

    /** The end of a run that raised nothing: classify its last output and close the
      history with the matching entry. */
    method ClassifyFinalState(finalState: Option<Update>) returns (result: WorkflowResult)
      requires workflowHistory.Some?
      modifies this
      ensures result == Classify(finalState)
      ensures View() == WithStep(old(View()), ClosingStep(result))
    {
      if finalState.Some? && finalState.value.messages.Some? && |finalState.value.messages.value| > 0 {
        var msgs := finalState.value.messages.value;
        var lastContent := msgs[|msgs| - 1].content;
        if finalState.value.finalReport.None? {
          AddWorkflowStep("Clarification Needed", StepWarning, "System needs more information: " + lastContent);
          return NeedsClarification(lastContent);
        } else {
          AddWorkflowStep("Workflow Complete", StepCompleted, "Fact-check completed successfully");
          return CompletedResult(finalState.value.finalReport);
        }
      } else {
        AddWorkflowStep("Workflow Complete", StepCompleted, "Fact-check workflow completed");
        return CompletedResult(None);
      }
    }

    /** The processing page: run the workflow and move on according to its result. */
    method ProcessingSection(p: ProcessingRun)
      requires workflowHistory.Some?
      modifies this
      ensures View() == AfterProcessing(old(View()), p)
    {
      match p {
        case Crashed(e) =>
          workflowState := Some(Error);
          processing := Some(false);
          AddWorkflowStep("Error", StepError, "Exception during workflow: " + e);
        case Returned(run) =>
          var result := RunFactCheckWorkflow(run);
          HandleResult(result);
      }
    }

    /** The processing page's reaction to the runner's result. */
    method HandleResult(result: WorkflowResult)
      requires workflowHistory.Some?
      modifies this
      ensures View() == ApplyResult(old(View()), result)
    {
      if result.NeedsClarification? {
        workflowState := Some(Clarification);
        clarificationMessage := Some(result.message);
      } else if result.CompletedResult? && result.finalReport.Some? && result.finalReport.value != "" {
        finalReport := Some(result.finalReport);
        workflowState := Some(Completed);
      } else if result.CompletedResult? {
        workflowState := Some(Error);
        AddWorkflowStep("Warning", StepWarning, "Workflow completed without generating a report");
      } else if result.ErrorResult? && result.error != "" {
        workflowState := Some(Error);
      } else {
        workflowState := Some(Error);
        AddWorkflowStep("Error", StepError, "Unexpected workflow completion");
      }
      processing := Some(false);
    }

    method StartFactCheck(claimInput: string)
      modifies this
      ensures View() == AfterStartFactCheck(old(View()), claimInput)
    {
      if Strip(claimInput) != "" {
        processing := Some(true);
        workflowState := Some(Processing);
        messages := Some([claimInput]);
        workflowHistory := Some([]);
      }
    }

    method SubmitAdditionalInfo(info: string)
      requires messages.Some?
      modifies this
      ensures View() == AfterSubmitInfo(old(View()), info)
    {
      if Strip(info) != "" {
        messages := Some(messages.value + [info]);
        processing := Some(true);
        workflowState := Some(Processing);
      }
    }

    method StartOver()
      modifies this
      ensures View() == AfterStartOver(old(View()))
    {
      workflowState := Some(Input);
      messages := Some([]);
      workflowHistory := Some([]);
      clarificationMessage := Some("");
    }

    method CheckAnother()
      modifies this
      ensures View() == AfterCheckAnother(old(View()))
    {
      workflowState := Some(Input);
      messages := Some([]);
      finalReport := Some(None);
      workflowHistory := Some([]);
    }

    method TryAgain()
      modifies this
      ensures View() == AfterTryAgain(old(View()))
    {
      workflowState := Some(Input);
      messages := Some([]);
      workflowHistory := Some([]);
    }

    /** The sidebar's "Reset Session": every key is deleted. */
    method ResetSession()
      modifies this
      ensures View() == EmptySession
    {
      workflowState, messages, finalReport, claimStatement := None, None, None, None;
      workflowHistory, processing, clarificationMessage := None, None, None;
    }

    /** One pass of the page script for the button pressed and, on the processing
      page, the way the workflow run ended. */
    method RunPage(action: UiAction, p: ProcessingRun)
      modifies this
      ensures View() == AfterPage(old(View()), action, p)
    {
      InitializeSessionState();
      if action == ClickResetSession {
        ResetSession();
        return;
      }
      match workflowState.value {
        case Input =>
          if !processing.value && action.ClickStartFactCheck? {
            StartFactCheck(action.claimInput);
          }
        case Processing =>
          if processing.value {
            ProcessingSection(p);
          }
        case Clarification =>
          if action.ClickSubmitInfo? {
            SubmitAdditionalInfo(action.info);
          } else if action == ClickStartOver {
            StartOver();
          }
        case Completed =>
          if action == ClickCheckAnother {
            CheckAnother();
          }
        case Error =>
          if action == ClickTryAgain {
            TryAgain();
          }
      }
    }
  }
}
