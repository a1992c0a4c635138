/**
 * The address-verification service: it seeds the address chat with a prompt listing the
 * people of a document context, drives the chat until the report agent declares completion,
 * and returns the report plugin's address map with a one-line-per-person summary.
 */
module AddressService {
  import opened Wrappers
  import opened Strings
  import opened Json
  import opened OrderedDict
  import opened Core
  import Report
  import opened TurnLoop
  import AgentChat

  const FAILED: string := "Address verification failed: "
  const INCOMPLETE: string := "Address verification did not complete successfully"
  const NO_ADDRESSES: string := "No addresses found."
  const EXCEEDED: string := "Verification exceeded "
  const WITHOUT_COMPLETION: string := " messages without completion"

  /** The message of the error raised when the chat runs past `n` responses. */
  function BudgetMessage(n: nat): string {
    EXCEEDED + NatToString(n) + WITHOUT_COMPLETION
  }

  /** What a successful verification returns: the address map, the summary and the chat messages. */
  datatype Verified = Verified(addresses: ODict<string, JValue>, summary: string, messages: seq<AgentMessage>)

  const REQUESTED_INTRO: string := "\nI need to verify addresses for the following people in "
  const REQUESTED_TYPE: string := " (type = 'requested'):\n"

  function Header(gemeinde: string): string {
    REQUESTED_INTRO + gemeinde + REQUESTED_TYPE
  }

  const REQUESTOR_INTRO: string := "\nAdditionally, I need to find the address of the requestor (type = 'requestor'):\n"
  const RETRIEVER_INSTRUCTION: string := "\nRetriever Agent: Verify these people using telsearch.search_person(name=\"FirstName LastName\", location=\""
  const REPORT_INSTRUCTION: string := "\")\nReport Agent: Check if all names have been verified. If yes, signal \"COMPLETE\" and save with report.save_people_data().\n"
  const JSON_EXAMPLE: string := "\nHere is an example of the JSON structure:\n{\n  \"firstname\": \"Hans\", \"lastname\": \"Müller\",\n  \"address\": \"Bahnhofstrasse 10\", \"city\": \"8000 Zurich\", \"type\": \"requested\"\n}\n"

  function Footer(requestor: Person, gemeinde: string): string {
    REQUESTOR_INTRO + requestor.firstname + " " + requestor.lastname + "\n" +
    RETRIEVER_INSTRUCTION + gemeinde + REPORT_INSTRUCTION + JSON_EXAMPLE
  }

  /** "firstname lastname" of each person, in order. */
  function Names(people: seq<Person>): (r: seq<string>)
    ensures |r| == |people|
    ensures forall i | 0 <= i < |people| :: r[i] == FullName(people[i])
  {
    seq(|people|, i requires 0 <= i < |people| => FullName(people[i]))
  }

  /** `_create_verification_prompt`. */
  function Prompt(ctx: DocumentContext): string {
    Header(ctx.gemeinde) + Terminated(Names(ctx.requestedPeople), '\n') + Footer(ctx.requestor, ctx.gemeinde)
  }

  /**
   * Between its header and its requestor block, the prompt holds one line per requested
   * person, "firstname lastname", in list order.
   */
  lemma PromptListsRequested(ctx: DocumentContext)
    requires forall i | 0 <= i < |ctx.requestedPeople| :: '\n' !in FullName(ctx.requestedPeople[i])
    ensures exists block ::
      Prompt(ctx) == Header(ctx.gemeinde) + block + Footer(ctx.requestor, ctx.gemeinde) &&
      SplitOn(block, '\n') == Names(ctx.requestedPeople) + [""]
  {
    SplitOnTerminated(Names(ctx.requestedPeople), '\n');
  }

  method CreateVerificationPrompt(ctx: DocumentContext) returns (prompt: string)
    ensures prompt == Prompt(ctx)
  {
    var people := ctx.requestedPeople;
    prompt := Header(ctx.gemeinde);
    var i := 0;
    while i < |people|
      invariant 0 <= i <= |people|
      invariant prompt == Header(ctx.gemeinde) + Terminated(Names(people[..i]), '\n')
    {
      var person := people[i];
      assert Names(people[..i + 1]) == Names(people[..i]) + [FullName(person)];
      TerminatedSnoc(Names(people[..i]), FullName(person), '\n');
      prompt := prompt + FullName(person) + "\n";
      i := i + 1;
    }
    assert people[..i] == people;
    prompt := prompt + Footer(ctx.requestor, ctx.gemeinde);
  }

  /** `f"- {name}: {addr or 'NOT FOUND'}"`. */
  function SummaryLine(e: (string, JValue)): string {
    "- " + e.0 + ": " + if Truthy(e.1) then Str(e.1) else "NOT FOUND"
  }

  function SummaryLines(d: ODict<string, JValue>): (r: seq<string>)
    ensures |r| == |d|
    ensures forall i | 0 <= i < |d| :: r[i] == SummaryLine(d[i])
  {
    seq(|d|, i requires 0 <= i < |d| => SummaryLine(d[i]))
  }

  /** The summary of an address map: one line per entry, or a fixed text for an empty map. */
  function Summary(d: ODict<string, JValue>): string {
    if d == [] then NO_ADDRESSES else Join(SummaryLines(d), "\n")
  }

  /** No name or address in the map holds a line break. */
  predicate SingleLine(d: ODict<string, JValue>) {
    forall i | 0 <= i < |d| :: '\n' !in d[i].0 && '\n' !in Str(d[i].1)
  }

  /** A summary of a non-empty map splits back into its entries' lines, in map order. */
  lemma SummaryOneLinePerEntry(d: ODict<string, JValue>)
    requires d != [] && SingleLine(d)
    ensures SplitOn(Summary(d), '\n') == SummaryLines(d)
  {
    forall i | 0 <= i < |d|
      ensures '\n' !in SummaryLines(d)[i]
    {
      var line := SummaryLines(d)[i];
      assert line == "- " + d[i].0 + ": " + (if Truthy(d[i].1) then Str(d[i].1) else "NOT FOUND");
    }
    SplitOnJoin(SummaryLines(d), '\n');
  }

  method CreateSummary(d: ODict<string, JValue>) returns (summary: string)
    ensures summary == Summary(d)
  {
    var lines: seq<string> := [];
    var i := 0;
    while i < |d|
      invariant 0 <= i <= |d|
      invariant lines == SummaryLines(d[..i])
    {
      var name, addr := d[i].0, d[i].1;
      var status := if Truthy(addr) then Str(addr) else "NOT FOUND";
      lines := lines + ["- " + name + ": " + status];
      i := i + 1;
    }
    assert d[..i] == d;
    summary := if lines != [] then Join(lines, "\n") else NO_ADDRESSES;
  }

  /** The address map the report plugin holds after the calls `cs` on a fresh plugin. */
  function AddressMap(cs: seq<Report.ReportCall>): ODict<string, JValue> {
    PutAll(Report.AddressPairs(Report.ApplyAll(Report.FRESH, cs).people))
  }

  /** The report plugin's state once the chat over `ts` has ended. */
  function FinalState(ts: seq<Turn<Report.ReportCall>>, cfg: LoopConfig): Report.ReportState {
    Report.ApplyAll(Report.FRESH, CallsOf(ts[..Pulled(ts, cfg)]))
  }

  /** `verify_addresses` for the context `ctx` over the chat stream `ts`. */
  function VerifyResult(ctx: DocumentContext, ts: seq<Turn<Report.ReportCall>>): Result<Verified, Failure> {
    if IsBlank(ctx.gemeinde) then Err(ValueError(GEMEINDE_EMPTY)) else ChatResult(ts, AgentChat.ADDRESS_LOOP)
  }

  /** What `verify_addresses` makes of the chat over `ts`, run under `cfg`, once its inputs were accepted. */
  function ChatResult(ts: seq<Turn<Report.ReportCall>>, cfg: LoopConfig): Result<Verified, Failure> {
    match Run(ts, cfg)
    case Raised(reason) => Err(RuntimeError(FAILED + reason))
    case OverBudget => Err(RuntimeError(FAILED + BudgetMessage(cfg.budget)))
    case Exhausted => Err(RuntimeError(INCOMPLETE))
    case Completed(n, msgs) =>
      var d := AddressMap(CallsOf(ts[..n]));
      Ok(Verified(d, Summary(d), msgs))
  }

  /**
   * A response after a budget's worth that neither raised nor completed fails the chat with
   * the budget message, whatever that response says.
   */
  lemma ChatOverBudget(ts: seq<Turn<Report.ReportCall>>, cfg: LoopConfig)
    requires cfg.budget < |ts| && QuietBefore(ts, cfg.budget, cfg) && ts[cfg.budget].event.Reply?
    ensures ChatResult(ts, cfg) == Err(RuntimeError(FAILED + BudgetMessage(cfg.budget)))
  {
    OverBudgetIff(ts, cfg);
  }

  lemma BudgetMessageOfMax()
    ensures BudgetMessage(MAX_MESSAGE_COUNT) == EXCEEDED + "20" + WITHOUT_COMPLETION
  {
    assert NatToString(2) == "2";
    assert NatToString(20) == NatToString(2) + [DigitChar(0)];
  }

  /**
   * A 21st response after 20 that neither raised nor completed fails the verification with
   * the budget message, whatever that response says.
   */
  lemma VerifyOverBudget(ctx: DocumentContext, ts: seq<Turn<Report.ReportCall>>)
    requires !IsBlank(ctx.gemeinde)
    requires MAX_MESSAGE_COUNT < |ts| && QuietBefore(ts, MAX_MESSAGE_COUNT, AgentChat.ADDRESS_LOOP)
    requires ts[MAX_MESSAGE_COUNT].event.Reply?
    ensures VerifyResult(ctx, ts) == Err(RuntimeError(FAILED + BudgetMessage(MAX_MESSAGE_COUNT)))
    ensures BudgetMessage(MAX_MESSAGE_COUNT) == EXCEEDED + "20" + WITHOUT_COMPLETION
  {
    ChatOverBudget(ts, AgentChat.ADDRESS_LOOP);
    BudgetMessageOfMax();
  }

  /** Every failure of the chat itself is a RuntimeError. */
  lemma ChatFailuresAreRuntime(ts: seq<Turn<Report.ReportCall>>, cfg: LoopConfig)
    ensures ChatResult(ts, cfg).Err? ==> ChatResult(ts, cfg).error.RuntimeError?
  {
  }

  /**
   * A successful chat run took at most the budget of responses, ended on a completing answer,
   * and returns the address map of the calls made during those responses, summarised.
   */
  lemma ChatSucceeded(ts: seq<Turn<Report.ReportCall>>, cfg: LoopConfig)
    requires ChatResult(ts, cfg).Ok?
    ensures Run(ts, cfg).Completed?
    ensures var n := Run(ts, cfg).consumed;
      var v := ChatResult(ts, cfg).value;
      1 <= n <= |ts| && n <= cfg.budget && |v.messages| <= n &&
      Completes(ts[n - 1].event, cfg) &&
      v.addresses == AddressMap(CallsOf(ts[..n])) && v.summary == Summary(v.addresses)
  {
    CompletedBound(ts, cfg);
  }

  /**
   * A successful verification took at most 20 responses, recorded at most that many
   * messages, ended on the report agent's completing answer, and returns the address map
   * of the last batch saved during those responses, summarised line by line.
   */
  lemma VerifySucceeded(ctx: DocumentContext, ts: seq<Turn<Report.ReportCall>>)
    requires VerifyResult(ctx, ts).Ok?
    ensures !IsBlank(ctx.gemeinde) && Run(ts, AgentChat.ADDRESS_LOOP).Completed?
    ensures var n := Run(ts, AgentChat.ADDRESS_LOOP).consumed;
      1 <= n <= |ts| &&
      n <= MAX_MESSAGE_COUNT && |VerifyResult(ctx, ts).value.messages| <= n &&
      Completes(ts[n - 1].event, AgentChat.ADDRESS_LOOP) &&
      VerifyResult(ctx, ts).value.addresses == AddressMap(CallsOf(ts[..n])) &&
      Keys(VerifyResult(ctx, ts).value.addresses) ==
        Dedup(Keys(Report.AddressPairs(Report.ApplyAll(Report.FRESH, CallsOf(ts[..n])).people)))
    ensures VerifyResult(ctx, ts).value.summary == Summary(VerifyResult(ctx, ts).value.addresses)
  {
    assert VerifyResult(ctx, ts) == ChatResult(ts, AgentChat.ADDRESS_LOOP);
    ChatSucceeded(ts, AgentChat.ADDRESS_LOOP);
    var n := Run(ts, AgentChat.ADDRESS_LOOP).consumed;
    PutAllKeys(Report.AddressPairs(Report.ApplyAll(Report.FRESH, CallsOf(ts[..n])).people));
  }

  /** Once the chat has ended, nothing the stream would have yielded later changes the outcome. */
  lemma VerifyIgnoresLaterTurns(ctx: DocumentContext, ts: seq<Turn<Report.ReportCall>>,
                                more: seq<Turn<Report.ReportCall>>)
    requires !Run(ts, AgentChat.ADDRESS_LOOP).Exhausted?
    ensures VerifyResult(ctx, ts + more) == VerifyResult(ctx, ts)
  {
    RunExtend(ts, more, AgentChat.ADDRESS_LOOP);
    if Run(ts, AgentChat.ADDRESS_LOOP).Completed? {
      var n := Run(ts, AgentChat.ADDRESS_LOOP).consumed;
      CompletedBound(ts, AgentChat.ADDRESS_LOOP);
      assert (ts + more)[..n] == ts[..n];
    }
  }

  /** The plugin calls the agent makes while producing `turn`, after those of `done`. */
  method ReplayCalls(plugin: Report.ReportPlugin, ghost done: seq<Turn<Report.ReportCall>>, turn: Turn<Report.ReportCall>)
    requires plugin.Valid() && plugin.State() == Report.ApplyAll(Report.FRESH, CallsOf(done))
    modifies plugin
    ensures plugin.Valid() && plugin.State() == Report.ApplyAll(Report.FRESH, CallsOf(done + [turn]))
  {
    RecordedSnoc(done, turn);
    Report.ApplyAllConcat(Report.FRESH, CallsOf(done), turn.calls);
    plugin.PerformAll(turn.calls);
  }

  /**
   * The `async for` loop of `verify_addresses`: pulls turns, lets the plugin take each
   * turn's calls, counts, records and stops as `Run` says. The plugin ends in the state the
   * calls of the pulled turns leave it in.
   */
  method DriveChat(plugin: Report.ReportPlugin, turns: seq<Turn<Report.ReportCall>>, cfg: LoopConfig)
    returns (outcome: Outcome)
    requires plugin.Valid() && plugin.State() == Report.FRESH
    modifies plugin
    ensures plugin.Valid()
    ensures outcome == Run(turns, cfg)
    ensures plugin.State() == FinalState(turns, cfg)
  {
    var messages: seq<AgentMessage> := [];
    var count := 0;
    var i := 0;
    while i < |turns|
      invariant 0 <= i <= |turns| && count == i
      invariant FirstStop(turns, cfg, 0) == FirstStop(turns, cfg, i)
      invariant messages == Recorded(turns[..i])
      invariant plugin.Valid() && plugin.State() == Report.ApplyAll(Report.FRESH, CallsOf(turns[..i]))
    {
      var turn := turns[i];
      assert turns[..i + 1] == turns[..i] + [turn];
      RecordedSnoc(turns[..i], turn);
      ReplayCalls(plugin, turns[..i], turn);
      StepAt(turns, cfg, i);
      match turn.event
      case Raise(reason) =>
        return Raised(reason);
      case Reply(response) =>
        count := count + 1;
        if count > cfg.budget {
          return OverBudget;
        }
        if response.name.Some? && response.name.value != [] {
          messages := messages + [AgentMessage("assistant", response.name, response.content)];
          if response.name.value == cfg.terminator && Contains(response.content, cfg.marker) {
            return Completed(i + 1, messages);
          }
        }
      i := i + 1;
    }
    assert turns[..i] == turns;
    EndOfStream(turns, cfg);
    return Exhausted;
  }

  /** The end of `verify_addresses`: a failure in the loop is wrapped, a success read from the plugin. */
  method Conclude(plugin: Report.ReportPlugin, turns: seq<Turn<Report.ReportCall>>, cfg: LoopConfig, outcome: Outcome)
    returns (r: Result<Verified, Failure>)
    requires plugin.Valid() && outcome == Run(turns, cfg)
    requires plugin.State() == FinalState(turns, cfg)
    ensures r == ChatResult(turns, cfg)
  {
    match outcome
    case Raised(reason) =>
      return Err(RuntimeError(FAILED + reason));
    case OverBudget =>
      return Err(RuntimeError(FAILED + BudgetMessage(cfg.budget)));
    case Exhausted =>
      return Err(RuntimeError(INCOMPLETE));
    case Completed(n, messages) =>
      CompletedBound(turns, cfg);
      var addresses := plugin.GetAddressesDict();
      var summary := CreateSummary(addresses);
      return Ok(Verified(addresses, summary, messages));
  }

  /** The service object: its report plugin and its chat persist between runs. */
  class AddressVerificationService {
    const reportPlugin: Report.ReportPlugin
    const chat: GroupChat

    ghost predicate Valid()
      reads this, reportPlugin
    {
      reportPlugin.Valid()
    }

    constructor()
      ensures Valid() && reportPlugin.State() == Report.FRESH && chat.history == []
      ensures fresh(reportPlugin) && fresh(chat)
    {
      reportPlugin := new Report.ReportPlugin();
      chat := new GroupChat();
    }

    method Reset()
      modifies reportPlugin
      ensures Valid() && reportPlugin.State() == Report.FRESH
    {
      reportPlugin.Reset();
    }

    /**
     * `verify_addresses`. The plugin is reset first; a blank municipality is refused before
     * the chat is touched; otherwise the prompt is added to the chat, the chat is driven,
     * and a failure inside the loop is wrapped.
     */
    method VerifyAddresses(ctx: DocumentContext, turns: seq<Turn<Report.ReportCall>>)
      returns (r: Result<Verified, Failure>)
      requires Valid()
      modifies reportPlugin, chat
      ensures Valid()
      ensures r == VerifyResult(ctx, turns)
      ensures IsBlank(ctx.gemeinde) ==> chat.history == old(chat.history) && reportPlugin.State() == Report.FRESH
      ensures !IsBlank(ctx.gemeinde) ==>
        chat.history == old(chat.history) + [AgentMessage("user", None, Prompt(ctx))] &&
        reportPlugin.State() == FinalState(turns, AgentChat.ADDRESS_LOOP)
    {
      Reset();
      if IsBlank(ctx.gemeinde) {
        return Err(ValueError(GEMEINDE_EMPTY));
      }
      var prompt := CreateVerificationPrompt(ctx);
      chat.AddChatMessage(AgentMessage("user", None, prompt));
      var outcome := DriveChat(reportPlugin, turns, AgentChat.ADDRESS_LOOP);
      r := Conclude(reportPlugin, turns, AgentChat.ADDRESS_LOOP, outcome);
    }

  }
}
