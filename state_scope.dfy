/** The state shared by the nodes of the fact-checking graph (`AgentState`), the
    per-node updates merged into it, and the two structured answers the language
    model is asked for (`ClarifyClaim`, `FactCheckClaim`). */
module StateScope {
  import opened Wrappers

  /** Who a message is from. `Plain` is a bare string that a node puts in its
      `messages` update instead of a message object. */
  datatype Role = Human | Ai | Plain

  datatype Message = Message(role: Role, content: string)

  function HumanMessage(content: string): Message { Message(Human, content) }

  function AiMessage(content: string): Message { Message(Ai, content) }

  /** Whether the claim needs clarification first, with the question to ask or the
      message confirming that checking will begin. Both texts may be missing (`None`). */
  datatype ClarifyClaim = ClarifyClaim(
    needClarification: bool,
    question: Option<string> := None,
    verification: Option<string> := None)

  /** The claim, restated as the single statement that will be fact-checked. */
  datatype FactCheckClaim = FactCheckClaim(claimStatement: string)

  /** `AgentState`: the conversation, the claim once it is written, the supervisor's
      conversation, the raw and compressed research notes, and the final report.
      A list channel that no node has written reads as the empty list. */
  datatype AgentState = AgentState(
    messages: seq<Message>,
    claimStatement: Option<string>,
    supervisorMessages: seq<Message>,
    rawNotes: seq<string>,
    notes: seq<string>,
    finalReport: Option<string>)

  /** The state a run starts from: the input schema carries only the conversation,
      so the claim statement and the final report are absent. */
  function InitialState(input: seq<Message>): (s: AgentState)
    ensures s.messages == input
    ensures s.claimStatement == None && s.finalReport == None
    ensures s.notes == [] && s.rawNotes == [] && s.supervisorMessages == []
  {
    AgentState(input, None, [], [], [], None)
  }

  /** What one node returns: each field is a key of the returned dictionary,
      `None` when the key is not there. */
  datatype Update = Update(
    messages: Option<seq<Message>> := None,
    claimStatement: Option<string> := None,
    supervisorMessages: Option<seq<Message>> := None,
    rawNotes: Option<seq<string>> := None,
    notes: Option<seq<string>> := None,
    finalReport: Option<string> := None,
    reportFilepath: Option<string> := None)

  /** The reducer of `notes` and `raw_notes` (list concatenation): the old list
      followed by the update, in order. */
  function AddNotes(existing: seq<string>, update: seq<string>): (merged: seq<string>)
    ensures |merged| == |existing| + |update|
    ensures merged[..|existing|] == existing
    ensures merged[|existing|..] == update
  {
    existing + update
  }

  /** Merges one node's update into the state: the list channels append what the
      update carries, the plain channels take the update's value when it has one.
      `report_filepath` is not a channel of `AgentState`, so the merge drops it. */
  function ApplyUpdate(s: AgentState, u: Update): (r: AgentState)
    ensures r.notes == AddNotes(s.notes, u.notes.GetOr([]))
    ensures r.rawNotes == AddNotes(s.rawNotes, u.rawNotes.GetOr([]))
    ensures |r.messages| == |s.messages| + |u.messages.GetOr([])|
    ensures r.messages[..|s.messages|] == s.messages
    ensures r.messages[|s.messages|..] == u.messages.GetOr([])
    ensures s.messages <= r.messages
    ensures |r.supervisorMessages| == |s.supervisorMessages| + |u.supervisorMessages.GetOr([])|
    ensures r.supervisorMessages[..|s.supervisorMessages|] == s.supervisorMessages
    ensures r.supervisorMessages[|s.supervisorMessages|..] == u.supervisorMessages.GetOr([])
    ensures r.claimStatement == (if u.claimStatement.Some? then u.claimStatement else s.claimStatement)
    ensures r.finalReport == (if u.finalReport.Some? then u.finalReport else s.finalReport)
  {
    AgentState(
      s.messages + u.messages.GetOr([]),
      if u.claimStatement.Some? then u.claimStatement else s.claimStatement,
      s.supervisorMessages + u.supervisorMessages.GetOr([]),
      AddNotes(s.rawNotes, u.rawNotes.GetOr([])),
      AddNotes(s.notes, u.notes.GetOr([])),
      if u.finalReport.Some? then u.finalReport else s.finalReport)
  }

  /** An update that carries nothing leaves the state as it was. */
  lemma EmptyUpdateChangesNothing(s: AgentState)
    ensures ApplyUpdate(s, Update()) == s
  {
  }

  /** Merging two updates one after the other keeps every earlier note and puts the
      first update's notes before the second's: merges never drop or reorder. */
  lemma NotesAccumulateInOrder(s: AgentState, u1: Update, u2: Update)
    ensures ApplyUpdate(ApplyUpdate(s, u1), u2).notes
         == s.notes + u1.notes.GetOr([]) + u2.notes.GetOr([])
    ensures ApplyUpdate(ApplyUpdate(s, u1), u2).rawNotes
         == s.rawNotes + u1.rawNotes.GetOr([]) + u2.rawNotes.GetOr([])
  {
  }
}
