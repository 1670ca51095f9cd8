/** The fact-checking graph and its terminal driver: the four nodes wired
    clarify -> brief -> supervisor -> final report, with the only branch out of the
    clarification node, one run of that graph for given model answers, and the
    loop that re-submits the conversation with one more user message whenever a
    run ends without a report. */
module Workflow {
  import opened Wrappers
  import opened StateScope
  import opened AgentScope
  import opened Text
  import opened Report
  import opened Seqs

  datatype Node = Start | Clarify | WriteBrief | Supervisor | FinalReport | End

  /** The name each node is registered under. */
  function NodeName(n: Node): string {
    match n
    case Start => "__start__"
    case Clarify => "clarify_fact_request"
    case WriteBrief => "write_claim_statement"
    case Supervisor => "supervisor_subgraph"
    case FinalReport => "final_report_generation"
    case End => "__end__"
  }

  /** The node a routing decision of the clarification step names. */
  function RouteTarget(r: Route): Node {
    match r
    case ToWriteClaimStatement => WriteBrief
    case ToEnd => End
  }

  /** The edges of the graph: the four fixed edges, and out of the clarification
      node the two targets its routing decision may name. */
  predicate IsEdge(from: Node, to: Node) {
    match from
    case Start => to == Clarify
    case Clarify => to == WriteBrief || to == End
    case WriteBrief => to == Supervisor
    case Supervisor => to == FinalReport
    case FinalReport => to == End
    case End => false
  }

  /** The nodes an edge leads to from `n`. */
  function Successors(n: Node): (next: set<Node>)
    ensures forall m :: m in next <==> IsEdge(n, m)
  {
    match n
    case Start => {Clarify}
    case Clarify => {WriteBrief, End}
    case WriteBrief => {Supervisor}
    case Supervisor => {FinalReport}
    case FinalReport => {End}
    case End => {}
  }

  /** The clarification node is the only node with a choice of successor, and the
      end is the only node without one. */
  lemma OnlyClarifyBranches(n: Node)
    ensures |Successors(n)| > 1 <==> n == Clarify
    ensures |Successors(n)| == 0 <==> n == End
  {
  }

  /** Whatever the model answers, the clarification step routes along an edge. */
  lemma ClarifyRoutesAlongEdge(response: ClarifyClaim)
    requires ClarifyFactRequest(response).Ok?
    ensures IsEdge(Clarify, RouteTarget(ClarifyFactRequest(response).value.goto))
  {
  }

  /** One node's output, as the run reports it. */
  datatype Event = Event(node: Node, output: Update)

  /** The outputs of the nodes that ran, in order, the final merged state, and the
      request sent to the writer model if the report node ran. */
  datatype RunOutcome = RunOutcome(events: seq<Event>, final: AgentState, request: Option<ReportRequest>)

  /** The events walk the graph: the first node follows the start, each node follows
      the one before it, and the end follows the last. */
  predicate IsPath(events: seq<Event>) {
    |events| >= 1
    && IsEdge(Start, events[0].node)
    && (forall i :: 0 <= i < |events| - 1 ==> IsEdge(events[i].node, events[i + 1].node))
    && IsEdge(events[|events| - 1].node, End)
  }

  /** One run of the graph on the conversation `input`, given the clarification
      answer, the brief answer, the supervisor's update and the writer model's report.
      The run stops after the clarification step when that step routes to the end. */
  function RunGraph(input: seq<Message>, clarify: ClarifyClaim, brief: FactCheckClaim,
                    research: Update, report: string): (r: Result<RunOutcome>)
    ensures r.Ok? <==> ClarifyFactRequest(clarify).Ok?
    ensures r.Ok? ==> IsPath(r.value.events)
    ensures r.Ok? ==> |r.value.events| == (if clarify.needClarification then 1 else 4)
    ensures r.Ok? ==> r.value.final.finalReport == (if clarify.needClarification then None else Some(report))
    ensures r.Ok? ==> input <= r.value.final.messages
  {
    match ClarifyFactRequest(clarify)
    case Err(e) => Err(e)
    case Ok(cmd) =>
      var s1 := ApplyUpdate(InitialState(input), cmd.update);
      var e1 := Event(Clarify, cmd.update);
      if cmd.goto == ToEnd then
        Ok(RunOutcome([e1], s1, None))
      else
        Ok(RunAfterClarify(s1, e1, brief, research, ReportUpdate(report)))
  }

  /** The rest of a run once the clarification step routed on to the brief, given
      the report node's output. */
  function RunAfterClarify(s1: AgentState, e1: Event, brief: FactCheckClaim,
                           research: Update, u4: Update): (out: RunOutcome)
    requires e1.node == Clarify
    ensures IsPath(out.events) && |out.events| == 4 && out.events[0] == e1
    ensures out.events[3] == Event(FinalReport, u4)
    ensures u4.finalReport.Some? ==> out.final.finalReport == u4.finalReport
    ensures s1.messages <= out.final.messages
  {
    var u2 := WriteClaimStatement(brief);
    var s2 := ApplyUpdate(s1, u2);
    var s3 := ApplyUpdate(s2, research);
    var s4 := ApplyUpdate(s3, u4);
    var events := [e1, Event(WriteBrief, u2), Event(Supervisor, research), Event(FinalReport, u4)];
    FullRunIsPath(events);
    PrefixTransitive(s1.messages, s2.messages, s3.messages);
    PrefixTransitive(s1.messages, s3.messages, s4.messages);
    RunOutcome(events, s4, Some(ReportRequestOf(s3)))
  }

  /** Clarify, brief, supervisor, report: a walk from the start to the end. */
  lemma FullRunIsPath(events: seq<Event>)
    requires |events| == 4
    requires events[0].node == Clarify && events[1].node == WriteBrief
    requires events[2].node == Supervisor && events[3].node == FinalReport
    ensures IsPath(events)
  {
  }

  /** When the report is written, the writer model gets the claim statement the
      brief recorded and every note the supervisor returned, in order. */
  lemma ReportSeesBriefAndNotes(input: seq<Message>, clarify: ClarifyClaim, brief: FactCheckClaim,
                                research: Update, report: string)
    requires RunGraph(input, clarify, brief, research, report).Ok?
    requires !clarify.needClarification
    ensures var out := RunGraph(input, clarify, brief, research, report).value;
            out.request.Some?
            && out.request.value.findings == Join(research.notes.GetOr([]), "\n")
            && (research.claimStatement.None? ==> out.request.value.researchBrief == brief.claimStatement)
  {
  }

  // ---------------------------------------------------------------------------
  // The driver: ask again until a report is produced

  /** What the driver does with the last node output of a run. */
  datatype DriverStep = AskForMore(shown: string) | ShowReport(report: string) | Finish

  /** The output of the last node that ran, if any node ran. */
  function LastOutput(events: seq<Event>): (out: Option<Update>)
    ensures |events| == 0 <==> out.None?
    ensures |events| > 0 ==> out.value == events[|events| - 1].output
  {
    if |events| == 0 then None else Some(events[|events| - 1].output)
  }

  /** A run whose last output has messages but no report asks the user for more,
      showing the last message; one with a report shows it; any other run ends the
      session. */
  function Assess(finalState: Option<Update>): (step: DriverStep)
    ensures step.AskForMore? <==>
              finalState.Some? && |finalState.value.messages.GetOr([])| > 0 && finalState.value.finalReport.None?
    ensures step.AskForMore? ==> step.shown == finalState.value.messages.value[|finalState.value.messages.value| - 1].content
    ensures step.ShowReport? <==>
              finalState.Some? && |finalState.value.messages.GetOr([])| > 0 && finalState.value.finalReport.Some?
    ensures step.ShowReport? ==> step.report == finalState.value.finalReport.value
  {
    if finalState.Some? && |finalState.value.messages.GetOr([])| > 0 then
      var msgs := finalState.value.messages.value;
      if finalState.value.finalReport.None? then AskForMore(msgs[|msgs| - 1].content)
      else ShowReport(finalState.value.finalReport.value)
    else Finish
  }

  /** For the graph above, the driver asks for more exactly when the model asked for
      clarification, showing its question, and otherwise shows the written report. */
  lemma AssessRunGraph(input: seq<Message>, clarify: ClarifyClaim, brief: FactCheckClaim,
                       research: Update, report: string)
    requires RunGraph(input, clarify, brief, research, report).Ok?
    ensures var out := RunGraph(input, clarify, brief, research, report).value;
            Assess(LastOutput(out.events))
            == if clarify.needClarification then AskForMore(clarify.question.value) else ShowReport(report)
  {
  }

  /** The conversation after the first input and the given replies, all as human messages. */
  function Conversation(userInput: string, replies: seq<string>): (ms: seq<Message>)
    ensures |ms| == |replies| + 1
    ensures ms[0] == HumanMessage(userInput)
    ensures forall i :: 0 <= i < |replies| ==> ms[i + 1] == HumanMessage(replies[i])
  {
    [HumanMessage(userInput)] + seq(|replies|, i requires 0 <= i < |replies| => HumanMessage(replies[i]))
  }

  /** The terminal driver. `agent` gives the last node output of a run on a
      conversation, and `replies` are the answers the user types, in order, when
      asked for more. Each run that asks for more adds exactly one human message and
      keeps every earlier one; the loop stops once a run shows a report or produces no
      output. This model also stops when the user's replies run out. */
  method Drive(userInput: string, replies: seq<string>, agent: seq<Message> -> Option<Update>)
    returns (messages: seq<Message>, finalState: Option<Update>, asked: nat)
    ensures asked <= |replies|
    ensures messages == Conversation(userInput, replies[..asked])
    ensures finalState == agent(messages)
    ensures forall k :: 0 <= k < asked ==> Assess(agent(Conversation(userInput, replies[..k]))).AskForMore?
    ensures Assess(finalState).AskForMore? ==> asked == |replies|
  {
    messages := [HumanMessage(userInput)];
    asked := 0;
    assert messages == Conversation(userInput, replies[..0]);
    finalState := None;
    while true
      invariant asked <= |replies|
      invariant messages == Conversation(userInput, replies[..asked])
      invariant forall k :: 0 <= k < asked ==> Assess(agent(Conversation(userInput, replies[..k]))).AskForMore?
      decreases |replies| - asked
    {
      finalState := agent(messages);
      if finalState.Some? && |finalState.value.messages.GetOr([])| > 0 {
        if finalState.value.finalReport.None? {
          if asked == |replies| {
            return;
          }
          assert replies[..asked + 1] == replies[..asked] + [replies[asked]];
          messages := messages + [HumanMessage(replies[asked])];
          asked := asked + 1;
          continue;
        } else {
          break;
        }
      } else {
        break;
      }
    }
  }
}
