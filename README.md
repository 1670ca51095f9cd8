# FactShield control logic in Dafny

FactShield checks a user's claim with a LangGraph pipeline of language-model agents. This project models the deterministic code that surrounds those model calls and proves properties about it. It has two entry points, a terminal driver and a Streamlit page.

- **Scoping nodes.** `clarify_fact_request` decides whether the claim needs clarification and routes to the brief or to the end. `write_claim_statement` packages the claim statement for the supervisor. The model's structured answers (`ClarifyClaim`, `FactCheckClaim`) are parameters.
- **State.** `AgentState` is the shared state. The list channels append (the `notes` and `raw_notes` reducers), and the plain channels take the last value written.
- **Report node.** `final_report_generation` does four things:
  - it joins the notes into the findings handed to the writer model;
  - it picks the title from the first `# ` heading of the report;
  - it sanitises the title into a file stem of at most 50 word characters;
  - it returns the report together with the notice naming `final_reports/<stem>.md`.
- **The graph.** The pipeline is clarify → brief → supervisor → report. The clarification node is the only branch.
- **Driver loop.** The terminal loop re-runs the graph with one more human message whenever a run ends without a report.
- **Streamlit page.**
  - It keeps its session keys in a `Session` class whose fields are `Option`s, so a missing key is `None`.
  - It records a workflow history while node outputs stream by.
  - It classifies the end of a run exactly as the terminal driver does, a proved lemma.
  - It moves through five pages: input, processing, clarification, completed and error.
  - Every pass over the page keeps an invariant:
    - the run flag is only up on the processing page;
    - the processing and clarification pages always have a message to show;
    - the completed page always has a non-empty report.

Python's string built-ins used by this code are written out in `Text`: `strip`, `lower`, `split('\n')`, `"\n".join`, `startswith`/`endswith`, and the `in` substring test. Joining the pieces of a split gives back the text, and splitting the join of a non-empty list of pieces that hold no separator gives back the pieces. The two regular expressions of the file name become `RemoveInvalid` (`[^\w\s-]` removed) and `Collapse` (runs of `-` and whitespace become one `_`).

`write_claim_statement` returns no `messages` key. The page's per-node handler only runs for an output that carries messages. So the page never reaches its branch that stores the claim statement in the session. `StreamlitApp.BriefOutputRecordsNoClaim` proves this: the brief's output adds only the "Processing" history entry.

## Model

| member | source | states |
|---|---|---|
| StateScope.InitialState | state_scope.py:9-26 | a run starts from the input conversation alone: no claim statement, no report, empty note and supervisor channels |
| StateScope.AddNotes | state_scope.py:24-25 | the merged list is the old list followed by the update, with the old list as its prefix and nothing dropped or reordered |
| StateScope.ApplyUpdate | state_scope.py:13-26 | list channels append the update after the old entries; plain channels take the update's value when the key is present and keep the old one otherwise |
| StateScope.EmptyUpdateChangesNothing | state_scope.py:24-25 | merging an update with no keys leaves the state unchanged |
| StateScope.NotesAccumulateInOrder | state_scope.py:24-25 | two merges in a row keep every earlier note and put the first update's notes before the second's |
| AgentScope.ClarifyFactRequest | factchecker_agent_scope.py:19-46 | routes to the end exactly when clarification is needed, otherwise to the brief; the update is exactly one AI message holding the question or the verification text; a missing text is an error |
| AgentScope.WriteClaimStatement | factchecker_agent_scope.py:48-73 | sets the claim statement to the model's claim and the supervisor messages to one human message, the claim plus "."; it writes no other key, and `messages` in particular |
| AgentScope.WriteClaimStatementOnlySetsBrief | factchecker_agent_scope.py:70-73 | merged into any state, the brief changes only the claim statement and extends the supervisor conversation by one message |
| AgentScope.ClarifyAddsOneMessage | factchecker_agent_scope.py:37-46 | merged into any state, a successful clarification step appends exactly one AI message and changes nothing else |
| Text.WordCharIsNotSpace | main.py:57-58 | no word character is whitespace |
| Text.StripLeading | main.py:52 | removes exactly the leading whitespace |
| Text.StripTrailing | main.py:52 | removes exactly the trailing whitespace |
| Text.Strip | main.py:52-53 | the result is no longer than the input and neither starts nor ends with whitespace; an input without leading or trailing whitespace is unchanged |
| Text.StripRemovesExactlyTheEnds | main.py:52-53 | the stripped text is a slice of the input with only whitespace before and after it, and it is empty exactly when the input is all whitespace |
| Text.LowerChar | streamlit_app.py:195-199 | maps ASCII upper-case letters to lower case and leaves every other character alone |
| Text.Lower | streamlit_app.py:195-199 | lower-cases position by position, keeping the length |
| Text.Contains | streamlit_app.py:195-199 | Python's `in` on strings; ContainsIff states what it means |
| Text.ContainsIff | streamlit_app.py:195-199 | the substring test holds exactly when the pattern occurs at some index |
| Text.Split | main.py:49 | splitting on a character gives at least one piece, and no piece contains that character |
| Text.Join | main.py:35 | `"\n".join`; JoinSnoc, JoinSplit and SplitJoin state what it gives |
| Text.JoinSnoc | main.py:35 | joining one more piece appends the separator and that piece |
| Text.JoinConsHead | main.py:35 | a character at the front of the first piece is at the front of the join |
| Text.JoinSplit | main.py:49 | joining the pieces of a split with the separator gives back the text |
| Text.SplitNoSeparator | main.py:49 | a text without the separator splits into itself alone |
| Text.SplitAfterPiece | main.py:49 | a piece followed by the separator splits off as the first piece |
| Text.SplitJoin | main.py:35 | splitting the join of separator-free pieces gives back the pieces |
| Report.ReportRequestOf | main.py:33-41 | the writer model gets the claim statement, or "" without one, and the notes joined with newlines |
| Report.FindingsInOrder | main.py:33-35 | no notes give "", one note gives itself, and a later note follows the earlier ones after a newline |
| Report.FindingsRecoverNotes | main.py:35 | when no note contains a newline, splitting the findings on newlines gives back every note, in order; a note with a newline is split apart |
| Report.TitleOf | main.py:50-54 | the title search over the lines; TitleOfFirstTitleLine and TitleOfWithoutTitleLine state what it returns |
| Report.TitleOfFirstTitleLine | main.py:49-54 | the title is the text after "# " of the first line whose stripped form starts with "# " |
| Report.TitleOfWithoutTitleLine | main.py:49-54 | with no such line the title is "fact_check_report" |
| Report.SubheadingIsNotTitle | main.py:52 | a line whose stripped form starts with "## " never supplies the title |
| Report.ExtractTitle | main.py:48-54 | the report's title is the title of its lines split at newlines |
| Report.FirstTitle | main.py:50-54 | the loop with its early exit returns the title of the first title line, or the default |
| Report.RemoveInvalid | main.py:57 | keeps only word characters, whitespace and "-", leaving a text of only those unchanged and removing an all-punctuation text completely |
| Report.RemoveInvalidAppend | main.py:57 | removal works character by character, so it distributes over concatenation |
| Report.SkipSeparators | main.py:58 | drops exactly the leading run of "-" and whitespace |
| Report.Collapse | main.py:58 | the result is no longer than the input and holds no "-" or whitespace |
| Report.CollapseWordChars | main.py:57-58 | after the first substitution, the second leaves only word characters |
| Report.CollapseIdentity | main.py:58 | a text without "-" or whitespace is left unchanged |
| Report.CollapseLeadingRun | main.py:58 | a run of separators at the front becomes one "_" before the rest |
| Report.CollapseKeepsHead | main.py:58 | a first character that is not a separator is kept as it is |
| Report.CollapseRun | main.py:58 | a whole run of separators becomes a single "_" |
| Report.SkipRun | main.py:58 | skipping separators removes the whole run before the next other character |
| Report.Truncate | main.py:59 | keeps the first 50 characters, or all of them when there are fewer |
| Report.FileStem | main.py:57-59 | the stem has at most 50 characters, all of them word characters: no whitespace, no "-" and no other punctuation |
| Report.FileStemIdempotent | main.py:57-59 | sanitising a stem again leaves it unchanged |
| Report.PunctuationOnlyTitle | main.py:57-61 | a title made only of punctuation gives the file name ".md" |
| Report.FileName | main.py:61 | the stem followed by ".md"; MarkdownNameShape and FilePathShape state its shape |
| Report.FilePath | main.py:64 | the report directory, "/" and the file name; FilePathShape states its shape |
| Report.MarkdownNameShape | main.py:61 | a stem of word characters plus ".md" has no "/" and its only "." is the extension's |
| Report.FilePathShape | main.py:57-64 | the path starts with "final_reports/" and ends with ".md"; it is at most 14 + 50 + 3 characters long; the file name has no "/" and its only "." is the one before "md" |
| Report.ReportUpdate | main.py:68-72 | the node returns the report content, the path built from its title, and exactly one message, the completion notice naming that path; it sets no other key |
| Report.FinalReportGeneration | main.py:25-72 | the node's writer request and return value, computed step by step, equal the two above |
| Workflow.IsEdge | main.py:82-88 | the edges of main.py's graph, with the clarification node leading to the brief or the end; Successors and OnlyClarifyBranches state them |
| Workflow.Successors | main.py:74-88 | a node's successors are exactly the nodes an edge leads to |
| Workflow.OnlyClarifyBranches | main.py:82-88 | the clarification node is the only node with more than one successor, and the end is the only node with none |
| Workflow.ClarifyRoutesAlongEdge | factchecker_agent_scope.py:19 | every routing decision of the clarification node follows an edge of the graph |
| Workflow.RunGraph | main.py:74-90 | a run exists exactly when the clarification step succeeds; its nodes walk the graph from start to end; it stops after one node when clarification is needed and otherwise visits all four; it keeps the input conversation as a prefix and ends with the report exactly when it ran to the end |
| Workflow.RunAfterClarify | main.py:83-85 | after the brief, a run visits supervisor and report along edges, ends with the report node's output and its report, and keeps the conversation as a prefix |
| Workflow.FullRunIsPath | main.py:82-85 | clarify, brief, supervisor, report is a walk from the start to the end |
| Workflow.ReportSeesBriefAndNotes | main.py:33-41 | the report node receives the brief's claim statement and every note the supervisor returned, in order |
| Workflow.LastOutput | main.py:118-119 | the last output is the output of the last node that ran, and is absent when no node ran |
| Workflow.Assess | main.py:141-163 | the driver asks for more exactly when the last output has messages and no report, showing the last message; it shows the report exactly when there are messages and a report; otherwise it stops |
| Workflow.AssessRunGraph | main.py:141-163 | for a run of the graph, the driver asks for the model's question exactly when clarification was needed, and otherwise shows the written report |
| Workflow.Conversation | main.py:105-107 | the conversation is the first input followed by each reply, all as human messages |
| Workflow.Drive | main.py:105-163 | each round that asks for more adds exactly one human message after all earlier ones; the loop stops once a run shows a report or produces nothing; every earlier round asked for more |
| StreamlitApp.IsClarification | streamlit_app.py:193-200 | the clarification test; IsClarificationIff and PhraseInAnyCaseIsClarification state what it accepts |
| StreamlitApp.IsClarificationIff | streamlit_app.py:193-200 | a message reads as a clarification request exactly when its stripped text ends with "?" or one of the five phrases occurs in its lower-cased text |
| StreamlitApp.PhraseInAnyCaseIsClarification | streamlit_app.py:195-199 | any capitalisation of a phrase anywhere in the message makes it a clarification request |
| StreamlitApp.Classify | streamlit_app.py:237-255 | messages without a report need clarification and carry the last message; with a report the run completed and carries exactly that report; no output, or no messages, completes without a report |
| StreamlitApp.ClassifyAgreesWithDriver | streamlit_app.py:236-255 | the page classifies a run exactly as the terminal driver does |
| StreamlitApp.WorkflowOutcome | streamlit_app.py:159-260 | an exception gives an error result with its message; otherwise the result is the classification of the last output |
| StreamlitApp.ClarifySteps | streamlit_app.py:187-207 | the clarification node adds two entries, the second a warning exactly when its message reads as a clarification request |
| StreamlitApp.BriefSteps | streamlit_app.py:208-216 | the brief adds two entries, plus a third when its output has a claim statement |
| StreamlitApp.ReportSteps | streamlit_app.py:220-230 | the report node adds one entry, completed exactly when its message says "saved to:" |
| StreamlitApp.NoticeSaysSavedTo | main.py:71 | the report node's notice contains "saved to:" whatever the path |
| StreamlitApp.ReportNoticeRecordedAsCompleted | streamlit_app.py:220-227 | the report node's own output is recorded as a completed report generation showing its notice |
| StreamlitApp.NodeSteps | streamlit_app.py:182-230 | only the four graph nodes add entries of their own when their output carries messages |
| StreamlitApp.ClosingStep | streamlit_app.py:243-258 | the closing entry is an error exactly for an error result, a warning exactly for a clarification result, and completed exactly for a completed result |
| StreamlitApp.EventSteps | streamlit_app.py:170-230 | each streamed output first adds a "Processing" entry naming its node, and nothing more when it carries no messages |
| StreamlitApp.Initialized | streamlit_app.py:89-102 | each missing key gets its default and every present key keeps its value |
| StreamlitApp.InitializeIdempotent | streamlit_app.py:89-102 | initialising twice equals initialising once, and an initialised session is left as it is |
| StreamlitApp.WithStep | streamlit_app.py:104-111 | adds one entry at the end of the history, leaves earlier entries and all other keys untouched |
| StreamlitApp.AfterEvent | streamlit_app.py:170-230 | one streamed output appends its entries to the history and records a claim statement only from a brief output that carries messages and a claim |
| StreamlitApp.AfterEvents | streamlit_app.py:168-234 | streaming only appends to the history and touches no key but the history and the claim statement |
| StreamlitApp.BriefOutputRecordsNoClaim | streamlit_app.py:182-216 | the brief's actual output stores no claim statement and adds only the "Processing" entry |
| StreamlitApp.AfterWorkflow | streamlit_app.py:141-260 | the runner keeps the earlier history, adds "Workflow Started" first and the entry for its result last, and changes no other key except the claim statement |
| StreamlitApp.ApplyResult | streamlit_app.py:336-358 | processing is over on every path; the page moves to clarification exactly for a clarification result, storing its message; it moves to completed exactly for a non-empty report, which it stores; otherwise it moves to error; messages are kept |
| StreamlitApp.AfterProcessing | streamlit_app.py:322-364 | processing is over on every path, including an exception, which leads to the error page; messages are kept |
| StreamlitApp.AfterStartFactCheck | streamlit_app.py:301-307 | a blank claim changes nothing; otherwise messages become exactly the claim, the history is cleared and the page moves to processing |
| StreamlitApp.AfterSubmitInfo | streamlit_app.py:400-407 | a blank answer changes nothing; otherwise exactly one message is added after the earlier ones, the history is kept and the page moves to processing |
| StreamlitApp.AfterStartOver | streamlit_app.py:410-415 | back to input with no messages, no history and an empty clarification message |
| StreamlitApp.AfterCheckAnother | streamlit_app.py:437-442 | back to input with no messages, no history and no report |
| StreamlitApp.AfterTryAgain | streamlit_app.py:449-453 | back to input with no messages and no history |
| StreamlitApp.AfterPage | streamlit_app.py:262-453 | one pass over the page; AfterPageConsistent, CompletedOnlyWithReport and Session.RunPage state what it does |
| StreamlitApp.AfterPageConsistent | streamlit_app.py:262-453 | every pass over the page keeps the invariant: empty or initialised; the run flag only on the processing page; a message to show on the processing and clarification pages; a non-empty report on the completed page |
| StreamlitApp.StartFactCheckConsistent | streamlit_app.py:301-307 | starting a check from the input page keeps the invariant |
| StreamlitApp.SubmitInfoConsistent | streamlit_app.py:400-407 | answering on the clarification page keeps the invariant |
| StreamlitApp.BackToInputConsistent | streamlit_app.py:410-453 | going back to the input page from any page but processing keeps the invariant |
| StreamlitApp.AfterProcessingConsistent | streamlit_app.py:322-364 | the processing page keeps the invariant: messages kept, the run flag down, completed only with a non-empty report |
| StreamlitApp.CompletedOnlyWithReport | streamlit_app.py:337-344 | the completed page is only reached from processing, by a run whose result carries a non-empty report, and the session then holds that report |
| StreamlitApp.ProcessingAGraphRun | streamlit_app.py:322-358 | a graph run without an exception ends on the clarification page exactly when the model asked for clarification, showing its question, and otherwise on the completed page with the report when it is not empty |
| StreamlitApp.Session.constructor | streamlit_app.py:89 | a new browser session holds no key |
| StreamlitApp.Session.InitializeSessionState | streamlit_app.py:89-102 | the session afterwards is the initialised view of the one before |
| StreamlitApp.Session.AddWorkflowStep | streamlit_app.py:104-111 | appends one entry in place, as WithStep |
| StreamlitApp.Session.RecordClarify | streamlit_app.py:187-207 | appends the clarification node's entries in place, as ClarifySteps |
| StreamlitApp.Session.RecordAnalysis | streamlit_app.py:189-207 | appends "Analyzing Claim" and then the verdict entry for the given reading of the message |
| StreamlitApp.Session.RecordBrief | streamlit_app.py:208-216 | appends the brief's entries and stores the claim statement when there is one |
| StreamlitApp.Session.RecordReportGeneration | streamlit_app.py:220-230 | appends the report node's entry in place |
| StreamlitApp.Session.RecordEvent | streamlit_app.py:170-230 | records one streamed output in place, as AfterEvent |
| StreamlitApp.Session.RunFactCheckWorkflow | streamlit_app.py:141-260 | returns the run's result and leaves the session as AfterWorkflow says |
| StreamlitApp.Session.StreamEvents | streamlit_app.py:168-234 | the loop keeps the session equal to the outputs streamed so far and returns the last output |
| StreamlitApp.Session.ClassifyFinalState | streamlit_app.py:236-255 | returns the classification of the last output and appends its closing entry |
| StreamlitApp.Session.HandleResult | streamlit_app.py:336-358 | applies the runner's result in place, as ApplyResult |
| StreamlitApp.Session.ProcessingSection | streamlit_app.py:322-364 | runs the workflow and applies its result in place, as AfterProcessing |
| StreamlitApp.Session.StartFactCheck | streamlit_app.py:301-307 | as AfterStartFactCheck, in place |
| StreamlitApp.Session.SubmitAdditionalInfo | streamlit_app.py:400-407 | as AfterSubmitInfo, in place |
| StreamlitApp.Session.StartOver | streamlit_app.py:410-415 | as AfterStartOver, in place |
| StreamlitApp.Session.CheckAnother | streamlit_app.py:437-442 | as AfterCheckAnother, in place |
| StreamlitApp.Session.TryAgain | streamlit_app.py:449-453 | as AfterTryAgain, in place |
| StreamlitApp.Session.ResetSession | streamlit_app.py:281-284 | deletes every key |
| StreamlitApp.Session.RunPage | streamlit_app.py:262-453 | one pass of the page script leaves the session as AfterPage says for the button pressed |

## Left out

- The supervisor, the research workers and the evidence compressor are not part of this model. `factchecker_multi_agent_supervisor` and `utils` are not part of this model either. The supervisor's update is a parameter of `Workflow.RunGraph`. Nothing about rounds, budgets or concurrency is modelled.
- Every language-model call is a parameter: the clarification answer, the brief, and the report text. So are the prompts, which only format text for the model, and the date they carry.
- Creating the `final_reports` directory and writing the file are left out. Only the computed path and the returned content are modelled.
- Rendering is left out. This covers the Streamlit CSS, header, widgets, progress messages and history display, and the terminal UI's printing. The terminal's own per-node messages (main.py:117-139) are display only.
- The asyncio event loop, `time.sleep` and `st.rerun` are left out. One call of `RunPage` is one pass of the page script.
- A run's stream is given as the node outputs it produced and the exception that ended it, if any. An exception may come after any number of outputs. `ProcessingRun.Crashed` is an exception raised outside the runner.
- StreamlitApp.Step: the timestamp of each history entry is a clock reading and is left out.
- StreamlitApp.Session.RunPage: the action is the button pressed in that pass. The text widgets' contents are given with it.
- StateScope.ApplyUpdate: `add_messages` replacing a message with the same id, and its conversion of bare strings to message objects, are left out. A bare string is kept as a `Plain` message.
- StateScope.ApplyUpdate: the `report_filepath` key is not a channel of `AgentState`. The merge drops it, as LangGraph does with an unknown key.
- Text.IsWordChar: `\w` is taken as the ASCII letters, digits and `_`. Non-ASCII letters and digits, which Python also counts, are left out.
- Text.LowerChar: `lower()` is modelled on ASCII letters only.
- Workflow.Drive: the model also stops when the user's replies run out. The Python loop would keep prompting.
- Workflow.RunGraph: only a failure of the clarification step is modelled. The brief and writer model calls, the supervisor, and creating the directory and writing the file (main.py:46, 64-66) always succeed here. In main.py an exception from any of them ends the program. Workflow.Drive inherits this.
- Workflow.RunGraph: the checkpointer configuration (`thread_id`, `recursion_limit`) is left out. The graph has no cycle, so the recursion limit is never reached.
- `run_streamlit.py` only launches the server, and `state_research.py` only declares the workers' state. Both are left out.
