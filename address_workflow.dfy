/**
 * The stand-alone address-verification workflow: the same chat loop as the service, driven
 * over a chat and a report plugin handed in by the caller, with its own budget and marker,
 * a free-text people list, and one more input check.
 */
module AddressWorkflow {
  import opened Wrappers
  import opened Strings
  import Core
  import Report
  import opened TurnLoop
  import AgentChat
  import AddressService

  const MAX_MESSAGE_COUNT: nat := 20
  const COMPLETION_MARKER: string := "COMPLETE"
  const PEOPLE_EMPTY: string := "People list cannot be empty"

  /** The loop this workflow runs: its own budget and marker, ended by the report agent. */
  const WORKFLOW_LOOP: LoopConfig := LoopConfig(MAX_MESSAGE_COUNT, AgentChat.REPORT_AGENT, COMPLETION_MARKER)

  const REQUESTED_END: string := " (type = 'requested'):"
  const REQUESTOR_HEADING: string := "Additionally, I need to find the address of the requestor (type = 'requestor'):"
  const EXAMPLE: string :=
    "\nHere is an example:\n{\n  \"firstname\": \"Steven\", \"lastname\": \"Hawking\",\n" +
    "  \"address\": \"Main Street 1\", \"city\": \"8000 Zurich\", \"type\": \"requestor\"\n}\n\n" +
    "The other people are of type \"requested\".\n"

  /** The requestor's line of the prompt, which names the last name twice. */
  function RequestorLine(firstname: string, lastname: string): string {
    firstname + " " + lastname + " " + lastname + " "
  }

  /** The prompt's first line, up to the line break before the people list. */
  function Intro(gemeinde: string): string {
    AddressService.REQUESTED_INTRO + gemeinde + REQUESTED_END
  }

  /** What follows the requestor's line. */
  function Instructions(gemeinde: string): string {
    AddressService.RETRIEVER_INSTRUCTION + gemeinde + AddressService.REPORT_INSTRUCTION + EXAMPLE
  }

  /** `_create_verification_prompt`. */
  function VerificationPrompt(firstname: string, lastname: string, gemeinde: string, peopleText: string): string {
    Intro(gemeinde) + "\n" + peopleText + "\n" + "\n" + REQUESTOR_HEADING + "\n" +
    RequestorLine(firstname, lastname) + "\n" + Instructions(gemeinde)
  }

  /**
   * The lines of the prompt are those of its first line, then the lines of the people text
   * verbatim, an empty line, those of the requestor heading and the requestor's line, then those of
   * the instructions, when the requestor's names hold no line break.
   */
  lemma PromptLines(firstname: string, lastname: string, gemeinde: string, peopleText: string)
    requires '\n' !in firstname && '\n' !in lastname
    ensures SplitOn(VerificationPrompt(firstname, lastname, gemeinde, peopleText), '\n') ==
            SplitOn(Intro(gemeinde), '\n') + SplitOn(peopleText, '\n') +
            [""] + SplitOn(REQUESTOR_HEADING, '\n') + [RequestorLine(firstname, lastname)] +
            SplitOn(Instructions(gemeinde), '\n')
  {
    var c := '\n';
    var line := RequestorLine(firstname, lastname);
    assert VerificationPrompt(firstname, lastname, gemeinde, peopleText) ==
           Intro(gemeinde) + [c] + peopleText + [c] + [c] + REQUESTOR_HEADING + [c] + line + [c] + Instructions(gemeinde);
    SplitAround(Intro(gemeinde), peopleText, REQUESTOR_HEADING, line, Instructions(gemeinde), c);
  }

  /** The split of `a`, sep, `p`, sep, sep, `h`, sep, `l`, sep, `rest`, where `l` holds no separator. */
  lemma SplitAround(a: string, p: string, h: string, l: string, rest: string, c: char)
    requires c !in l
    ensures SplitOn(a + [c] + p + [c] + [c] + h + [c] + l + [c] + rest, c) ==
            SplitOn(a, c) + SplitOn(p, c) + [[]] + SplitOn(h, c) + [l] + SplitOn(rest, c)
  {
    var t4 := l + [c] + rest;
    var t3 := h + [c] + t4;
    var t2 := [] + [c] + t3;
    var t1 := p + [c] + t2;
    var w := a + [c] + t1;
    Flatten(a, p, h, l, rest, c);
    SplitOnSeparated(l, c, rest);
    SplitOnAbsent(l, c);
    var s4 := [l] + SplitOn(rest, c);
    assert SplitOn(t4, c) == s4;
    SplitOnSeparated(h, c, t4);
    var s3 := SplitOn(h, c) + s4;
    assert SplitOn(t3, c) == s3;
    SplitOnSeparated([], c, t3);
    SplitOnAbsent([], c);
    var s2 := [[]] + s3;
    assert SplitOn(t2, c) == s2;
    SplitOnSeparated(p, c, t1[|p| + 1..]);
    assert t1[|p| + 1..] == t2;
    var s1 := SplitOn(p, c) + s2;
    assert SplitOn(t1, c) == s1;
    SplitOnSeparated(a, c, t1);
    assert SplitOn(w, c) == SplitOn(a, c) + s1;
    Regroup(SplitOn(a, c), SplitOn(p, c), [[]], SplitOn(h, c), [l], SplitOn(rest, c));
  }

  /** The flat concatenation is the nested one. */
  lemma Flatten(a: string, p: string, h: string, l: string, rest: string, c: char)
    ensures a + [c] + p + [c] + [c] + h + [c] + l + [c] + rest ==
            a + [c] + (p + [c] + ([] + [c] + (h + [c] + (l + [c] + rest))))
  {
  }

  lemma Regroup<T>(x1: seq<T>, x2: seq<T>, x3: seq<T>, x4: seq<T>, x5: seq<T>, x6: seq<T>)
    ensures x1 + (x2 + (x3 + (x4 + (x5 + x6)))) == x1 + x2 + x3 + x4 + x5 + x6
  {
  }

  /** `verify_addresses` over the chat stream `ts`. */
  function WorkflowResult(firstname: string, lastname: string, gemeinde: string, peopleText: string,
                          ts: seq<Turn<Report.ReportCall>>): Result<AddressService.Verified, Failure> {
    if IsBlank(gemeinde) then Err(ValueError(Core.GEMEINDE_EMPTY))
    else if IsBlank(peopleText) then Err(ValueError(PEOPLE_EMPTY))
    else AddressService.ChatResult(ts, WORKFLOW_LOOP)
  }

  /**
   * Past its input checks the workflow behaves as the service does for any context with the
   * same municipality: the two loops agree on budget, terminator and marker.
   */
  lemma WorkflowAgreesWithService(firstname: string, lastname: string, peopleText: string,
                                  ctx: Core.DocumentContext, ts: seq<Turn<Report.ReportCall>>)
    requires !IsBlank(peopleText)
    ensures WorkflowResult(firstname, lastname, ctx.gemeinde, peopleText, ts) == AddressService.VerifyResult(ctx, ts)
  {
    assert WORKFLOW_LOOP == AgentChat.ADDRESS_LOOP;
  }

  /**
   * The input checks are the only source of ValueError: the result is one exactly when the
   * municipality or the people list is blank, and the municipality is checked first.
   */
  lemma WorkflowInputErrors(firstname: string, lastname: string, gemeinde: string, peopleText: string,
                            ts: seq<Turn<Report.ReportCall>>)
    ensures var r := WorkflowResult(firstname, lastname, gemeinde, peopleText, ts);
      (r.Err? && r.error.ValueError?) <==> IsBlank(gemeinde) || IsBlank(peopleText)
    ensures IsBlank(gemeinde) ==>
      WorkflowResult(firstname, lastname, gemeinde, peopleText, ts).error.msg == Core.GEMEINDE_EMPTY
  {
    AddressService.ChatFailuresAreRuntime(ts, WORKFLOW_LOOP);
  }

  /**
   * A successful run took at most 20 responses, ended on the report agent's answer holding
   * COMPLETE, and returns the address map of the calls made up to then, summarised.
   */
  lemma WorkflowSucceeded(firstname: string, lastname: string, gemeinde: string, peopleText: string,
                          ts: seq<Turn<Report.ReportCall>>)
    requires WorkflowResult(firstname, lastname, gemeinde, peopleText, ts).Ok?
    ensures !IsBlank(gemeinde) && !IsBlank(peopleText) && Run(ts, WORKFLOW_LOOP).Completed?
    ensures var n := Run(ts, WORKFLOW_LOOP).consumed;
      var v := WorkflowResult(firstname, lastname, gemeinde, peopleText, ts).value;
      1 <= n <= MAX_MESSAGE_COUNT && n <= |ts| && |v.messages| <= n &&
      Completes(ts[n - 1].event, WORKFLOW_LOOP) &&
      v.addresses == AddressService.AddressMap(CallsOf(ts[..n])) &&
      v.summary == AddressService.Summary(v.addresses)
  {
    AddressService.ChatSucceeded(ts, WORKFLOW_LOOP);
  }

  /**
   * `verify_addresses`: resets the plugin, checks the municipality and then the people
   * list, seeds the chat and drives it.
   */
  method VerifyAddresses(chat: GroupChat, reportPlugin: Report.ReportPlugin,
                         firstname: string, lastname: string, gemeinde: string, peopleText: string,
                         turns: seq<Turn<Report.ReportCall>>)
    returns (r: Result<AddressService.Verified, Failure>)
    requires reportPlugin.Valid()
    modifies chat, reportPlugin
    ensures reportPlugin.Valid()
    ensures r == WorkflowResult(firstname, lastname, gemeinde, peopleText, turns)
    ensures IsBlank(gemeinde) || IsBlank(peopleText) ==>
      chat.history == old(chat.history) && reportPlugin.State() == Report.FRESH
    ensures !IsBlank(gemeinde) && !IsBlank(peopleText) ==>
      chat.history == old(chat.history) + [AgentMessage("user", None, VerificationPrompt(firstname, lastname, gemeinde, peopleText))] &&
      reportPlugin.State() == AddressService.FinalState(turns, WORKFLOW_LOOP)
  {
    reportPlugin.Reset();
    if IsBlank(gemeinde) {
      return Err(ValueError(Core.GEMEINDE_EMPTY));
    }
    if IsBlank(peopleText) {
      return Err(ValueError(PEOPLE_EMPTY));
    }
    var prompt := VerificationPrompt(firstname, lastname, gemeinde, peopleText);
    chat.AddChatMessage(AgentMessage("user", None, prompt));
    var outcome := AddressService.DriveChat(reportPlugin, turns, WORKFLOW_LOOP);
    r := AddressService.Conclude(reportPlugin, turns, WORKFLOW_LOOP, outcome);
  }
}
