/**
 * The configuration of the document-validation group chat: its two agents, the agent that
 * speaks first, and how the selector's output is read.
 */
module ValidationChat {
  import opened Wrappers
  import TurnLoop
  import Core

  const VALIDATOR: string := "Validator_Agent"
  const COMPLIANCE_REPORTER: string := "ComplianceReporter_Agent"

  /** What `setup_validation_chat` fixes: the chat's agents in order and the initial agent. */
  datatype ChatSetup = ChatSetup(agents: seq<string>, initialAgent: string)

  function SetupValidationChat(): (c: ChatSetup)
    ensures c.agents == [VALIDATOR, COMPLIANCE_REPORTER]
    ensures c.initialAgent == c.agents[0]
  {
    ChatSetup([VALIDATOR, COMPLIANCE_REPORTER], VALIDATOR)
  }

  /**
   * `result_parser`: the selector's output as it is when it is not empty, the validator
   * otherwise. The output is not checked against the chat's agents.
   */
  function ResultParser(x: Option<string>): (r: string)
    ensures r != []
    ensures x.Some? && x.value != [] ==> r == x.value
    ensures x.None? || x.value == [] ==> r == VALIDATOR
  {
    TurnLoop.ParseSelection(x, VALIDATOR)
  }

  /**
   * The parser names one of the chat's agents exactly when the selector's output is empty or
   * one of them: any other output is passed on unchecked.
   */
  lemma ResultParserInChat(x: Option<string>)
    ensures ResultParser(x) in SetupValidationChat().agents <==>
      x.None? || x.value == [] || x.value in SetupValidationChat().agents
  {
  }

  /** The loop document validation runs: 20 responses, ended by the reporter saying COMPLETE. */
  const VALIDATION_LOOP: TurnLoop.LoopConfig :=
    TurnLoop.LoopConfig(Core.MAX_MESSAGE_COUNT, COMPLIANCE_REPORTER, Core.COMPLETION_MARKER)
}
