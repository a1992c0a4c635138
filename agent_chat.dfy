/**
 * The configuration of the address-verification group chat: its two agents, the agent that
 * speaks first, and how the selector's output is read.
 */
module AgentChat {
  import opened Wrappers
  import TurnLoop
  import Core

  const RETRIEVER: string := "Retriever_Agent"
  const REPORT_AGENT: string := "Report_Agent"

  /** What `setup_agent_chat` fixes: the chat's agents in order and the initial agent. */
  datatype ChatSetup = ChatSetup(agents: seq<string>, initialAgent: string)

  function SetupAgentChat(): (c: ChatSetup)
    ensures c.agents == [RETRIEVER, REPORT_AGENT]
    ensures c.initialAgent == c.agents[0]
  {
    ChatSetup([RETRIEVER, REPORT_AGENT], RETRIEVER)
  }

  /**
   * `result_parser`: the selector's output as it is when it is not empty, the retriever
   * otherwise. The output is not checked against the chat's agents.
   */
  function ResultParser(x: Option<string>): (r: string)
    ensures r != []
    ensures x.Some? && x.value != [] ==> r == x.value
    ensures x.None? || x.value == [] ==> r == RETRIEVER
  {
    TurnLoop.ParseSelection(x, RETRIEVER)
  }

  /**
   * The parser names one of the chat's agents exactly when the selector's output is empty or
   * one of them: any other output is passed on unchecked.
   */
  lemma ResultParserInChat(x: Option<string>)
    ensures ResultParser(x) in SetupAgentChat().agents <==>
      x.None? || x.value == [] || x.value in SetupAgentChat().agents
  {
  }

  /** The loop the address services run: 20 responses, ended by the report agent saying COMPLETE. */
  const ADDRESS_LOOP: TurnLoop.LoopConfig := TurnLoop.LoopConfig(Core.MAX_MESSAGE_COUNT, REPORT_AGENT, Core.COMPLETION_MARKER)
}
