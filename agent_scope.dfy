/** The two scoping nodes of the graph: `clarify_fact_request` decides whether the
    claim can be checked as it stands, and `write_claim_statement` turns the
    conversation into the claim statement handed to the supervisor. The language
    model's structured answer is a parameter of each. */
module AgentScope {
  import opened Wrappers
  import opened StateScope

  /** Where `clarify_fact_request` sends the run next: on to `write_claim_statement`,
      or to the end of the graph. These are the only two targets it may name. */
  datatype Route = ToWriteClaimStatement | ToEnd

  /** A routing decision together with the state update it carries. */
  datatype Command = Command(goto: Route, update: Update)

  /** The text the node turns into its AI message: the question when clarification
      is needed, the verification message otherwise. */
  function ReplyText(response: ClarifyClaim): Option<string> {
    if response.needClarification then response.question else response.verification
  }

  /** `clarify_fact_request`: stop and ask the question when the model says the claim
      needs clarification, otherwise acknowledge it and go on to the brief. Either way
      the update is one AI message. A missing text cannot become a message's content,
      so that case raises. */
  function ClarifyFactRequest(response: ClarifyClaim): (r: Result<Command>)
    ensures r.Ok? <==> ReplyText(response).Some?
    ensures r.Ok? ==> (r.value.goto == ToEnd <==> response.needClarification)
    ensures r.Ok? && response.needClarification ==>
              r.value.update == Update(messages := Some([AiMessage(response.question.value)]))
    ensures r.Ok? && !response.needClarification ==>
              r.value.update == Update(messages := Some([AiMessage(response.verification.value)]))
  {
    match ReplyText(response)
    case None => Err("AIMessage content must be a string, got None")
    case Some(text) =>
      var goto := if response.needClarification then ToEnd else ToWriteClaimStatement;
      Ok(Command(goto, Update(messages := Some([AiMessage(text)]))))
  }

  /** `write_claim_statement`: records the claim statement and opens the supervisor's
      conversation with one human message, the claim followed by a full stop. It
      writes no other key, and in particular nothing to `messages`. */
  function WriteClaimStatement(response: FactCheckClaim): (u: Update)
    ensures u.claimStatement == Some(response.claimStatement)
    ensures u.supervisorMessages.Some? && |u.supervisorMessages.value| == 1
    ensures u.supervisorMessages.value[0].role == Human
    ensures u.supervisorMessages.value[0].content == response.claimStatement + "."
    ensures u.messages.None? && u.notes.None? && u.rawNotes.None?
    ensures u.finalReport.None? && u.reportFilepath.None?
  {
    Update(
      claimStatement := Some(response.claimStatement),
      supervisorMessages := Some([HumanMessage(response.claimStatement + ".")]))
  }

  /** Merged into any state, the brief changes the claim statement and extends the
      supervisor's conversation by the one message, and leaves the rest as it was. */
  lemma WriteClaimStatementOnlySetsBrief(s: AgentState, response: FactCheckClaim)
    ensures ApplyUpdate(s, WriteClaimStatement(response))
         == s.(claimStatement := Some(response.claimStatement),
               supervisorMessages := s.supervisorMessages + [HumanMessage(response.claimStatement + ".")])
  {
  }

  /** Merged into any state, a successful clarification step adds exactly one AI
      message at the end of the conversation and changes nothing else. */
  lemma ClarifyAddsOneMessage(s: AgentState, response: ClarifyClaim)
    requires ClarifyFactRequest(response).Ok?
    ensures ApplyUpdate(s, ClarifyFactRequest(response).value.update)
         == s.(messages := s.messages + [AiMessage(ReplyText(response).value)])
  {
  }
}
