/**
 * The document service: it builds the generation prompt for a document context, and it
 * validates a document by driving the validation chat, whose validator agent stores its
 * checklist results in the compliance plugin.
 */
module DocumentSvc {
  import opened Wrappers
  import opened Strings
  import opened Json
  import opened Core
  import Compliance
  import opened TurnLoop
  import ValidationChat

  const GEN_INTRO: string :=
    "\nYou are an expert in creating official documents following strict formats.\n" +
    "Create a real document (not a template!) based on the template provided below.\n\n" +
    "INFORMATION TO INCLUDE:\n1. The applicant: "
  const GEN_ADDRESS: string := "\n   Address: "
  const GEN_LIST: string := "\n2. List of requested individuals:\n"
  const GEN_PURPOSE: string := "\n3. Purpose of the request: "
  const GEN_MUNICIPALITY: string := "\n4. Municipality: "
  const GEN_INSTRUCTIONS: string :=
    "\n\nINSTRUCTIONS:\n1. Use the template and insert all data correctly.\n" +
    "2. Format multiple individuals as a numbered list.\n3. Ensure correct legal phrasing.\n" +
    "4. Return only the completed document text in markdown format.\n\nTEMPLATE:\n"
  const ADDRESS_NOT_AVAILABLE: string := "[ADDRESS NOT AVAILABLE]"
  const NOT_FOUND: string := "NOT FOUND"

  const VAL_INTRO: string :=
    "\nPerform a detailed validation of the following document.\n" +
    "Carefully check each item in the checklist.\n\nDOCUMENT:\n"
  const VAL_CHECKLIST: string := "\n\nVALIDATION CHECKLIST:\n"
  const VAL_OUTRO: string :=
    "\n\nValidator Agent: Check each item individually and save the result with compliance.save_validation_result()\n" +
    "ComplianceReporter: Monitor progress and mark when all items have been checked.\n"

  const FAILED: string := "Validation failed: "
  const INCOMPLETE: string := "Validation did not complete successfully"
  const EXCEEDED: string := "Validation exceeded "
  const WITHOUT_COMPLETION: string := " messages without completion"

  /** `person.full_address or fallback`. */
  function AddressOr(p: Person, fallback: string): (r: string)
    ensures HasAddress(p) ==> r == FullAddress(p).value
    ensures !HasAddress(p) ==> r == fallback
  {
    if HasAddress(p) then FullAddress(p).value else fallback
  }

  /** The prompt's line for a requested person. */
  function PersonEntry(p: Person): string {
    "   - " + FullName(p) + ": " + AddressOr(p, NOT_FOUND)
  }

  function PersonEntries(people: seq<Person>): (r: seq<string>)
    ensures |r| == |people|
    ensures forall i | 0 <= i < |people| :: r[i] == PersonEntry(people[i])
  {
    seq(|people|, i requires 0 <= i < |people| => PersonEntry(people[i]))
  }

  lemma PersonEntriesSnoc(people: seq<Person>, i: nat)
    requires i < |people|
    ensures PersonEntries(people[..i + 1]) == PersonEntries(people[..i]) + [PersonEntry(people[i])]
  {
    assert people[..i + 1] == people[..i] + [people[i]];
  }

  /** The generation prompt for `ctx` and the document template. */
  function GenerationPrompt(ctx: DocumentContext, template: string): string {
    GEN_INTRO + FullName(ctx.requestor) + GEN_ADDRESS + AddressOr(ctx.requestor, ADDRESS_NOT_AVAILABLE) +
    GEN_LIST + Terminated(PersonEntries(ctx.requestedPeople), '\n') +
    GEN_PURPOSE + ctx.zweck + GEN_MUNICIPALITY + ctx.gemeinde + GEN_INSTRUCTIONS + template + "\n"
  }

  /**
   * The requested people's block of the generation prompt splits into one entry per person,
   * in list order, when no name or address holds a line break.
   */
  lemma GenerationPromptEntries(people: seq<Person>)
    requires forall i | 0 <= i < |people| :: '\n' !in FullName(people[i]) && '\n' !in AddressOr(people[i], NOT_FOUND)
    ensures SplitOn(Terminated(PersonEntries(people), '\n'), '\n') == PersonEntries(people) + [""]
  {
    forall i | 0 <= i < |people|
      ensures '\n' !in PersonEntries(people)[i]
    {
      assert PersonEntries(people)[i] == "   - " + FullName(people[i]) + ": " + AddressOr(people[i], NOT_FOUND);
    }
    SplitOnTerminated(PersonEntries(people), '\n');
  }

  /** The seed message of `validate_document`. */
  function ValidationPrompt(document: string, questions: string): string {
    VAL_INTRO + document + VAL_CHECKLIST + questions + VAL_OUTRO
  }

  /** What a successful validation returns: the Markdown report, the stored items and the chat messages. */
  datatype Validated = Validated(report: string, results: seq<Record>, messages: seq<AgentMessage>)

  /** The compliance plugin's state once the chat over `ts` has ended. */
  function FinalState(ts: seq<Turn<Compliance.ComplianceCall>>): Compliance.ComplianceState {
    Compliance.ApplyAll(Compliance.FRESH, CallsOf(ts[..Pulled(ts, ValidationChat.VALIDATION_LOOP)]))
  }

  /** `validate_document` over the chat stream `ts`. */
  function ValidateResult(ts: seq<Turn<Compliance.ComplianceCall>>): Result<Validated, Failure> {
    match Run(ts, ValidationChat.VALIDATION_LOOP)
    case Raised(reason) => Err(RuntimeError(FAILED + reason))
    case OverBudget => Err(RuntimeError(FAILED + EXCEEDED + NatToString(MAX_MESSAGE_COUNT) + WITHOUT_COMPLETION))
    case Exhausted => Err(RuntimeError(INCOMPLETE))
    case Completed(n, msgs) =>
      var items := Compliance.ApplyAll(Compliance.FRESH, CallsOf(ts[..n])).items;
      Ok(Validated(Compliance.MarkdownReport(items), items, msgs))
  }

  /**
   * A successful validation ended within 20 responses on the reporter's completing answer;
   * its results are exactly the accepted saves made during those responses, in order, each
   * stored in full, and its report renders them.
   */
  lemma ValidateSucceeded(ts: seq<Turn<Compliance.ComplianceCall>>)
    requires ValidateResult(ts).Ok?
    ensures var n := Run(ts, ValidationChat.VALIDATION_LOOP).consumed;
      n <= MAX_MESSAGE_COUNT && Completes(ts[n - 1].event, ValidationChat.VALIDATION_LOOP) &&
      ValidateResult(ts).value.results == Compliance.AcceptedRecords(CallsOf(ts[..n]))
    ensures Compliance.AllStored(ValidateResult(ts).value.results)
    ensures ValidateResult(ts).value.report == Compliance.MarkdownReport(ValidateResult(ts).value.results)
  {
    CompletedBound(ts, ValidationChat.VALIDATION_LOOP);
    var n := Run(ts, ValidationChat.VALIDATION_LOOP).consumed;
    Compliance.ApplyAllFresh(CallsOf(ts[..n]));
    Compliance.AcceptedRecordsStored(CallsOf(ts[..n]));
  }

  /** The calls `cs` without `mark_validation_complete`. */
  function NoMarks(cs: seq<Compliance.ComplianceCall>): seq<Compliance.ComplianceCall> {
    if cs == [] then []
    else NoMarks(cs[..|cs| - 1]) + if cs[|cs| - 1].MarkValidationComplete? then [] else [cs[|cs| - 1]]
  }

  /** The stream `ts` with every `mark_validation_complete` call taken out. */
  function WithoutMarks(ts: seq<Turn<Compliance.ComplianceCall>>): (r: seq<Turn<Compliance.ComplianceCall>>)
    ensures |r| == |ts|
    ensures forall i | 0 <= i < |ts| :: r[i] == Turn(NoMarks(ts[i].calls), ts[i].event)
  {
    seq(|ts|, i requires 0 <= i < |ts| => Turn(NoMarks(ts[i].calls), ts[i].event))
  }

  lemma {:induction false} AcceptedRecordsConcat(a: seq<Compliance.ComplianceCall>, b: seq<Compliance.ComplianceCall>)
    ensures Compliance.AcceptedRecords(a + b) == Compliance.AcceptedRecords(a) + Compliance.AcceptedRecords(b)
  {
    if b == [] {
      assert a + b == a;
    } else {
      assert (a + b)[..|a + b| - 1] == a + b[..|b| - 1];
      AcceptedRecordsConcat(a, b[..|b| - 1]);
    }
  }

  lemma {:induction false} AcceptedRecordsNoMarks(cs: seq<Compliance.ComplianceCall>)
    ensures Compliance.AcceptedRecords(NoMarks(cs)) == Compliance.AcceptedRecords(cs)
  {
    if cs != [] {
      var init, c := cs[..|cs| - 1], cs[|cs| - 1];
      AcceptedRecordsNoMarks(init);
      var tail := if c.MarkValidationComplete? then [] else [c];
      AcceptedRecordsConcat(NoMarks(init), tail);
      if tail == [c] {
        assert Compliance.AcceptedRecords([c]) == Compliance.AcceptedRecords([][..0]) +
          (if Compliance.AcceptedSave(c) then [Compliance.WithDetails(c.input.data)] else []);
      } else {
        assert NoMarks(init) + tail == NoMarks(init);
      }
    }
  }

  lemma {:induction false} AcceptedRecordsWithoutMarks(ts: seq<Turn<Compliance.ComplianceCall>>)
    ensures Compliance.AcceptedRecords(CallsOf(WithoutMarks(ts))) == Compliance.AcceptedRecords(CallsOf(ts))
  {
    if ts != [] {
      var init := ts[..|ts| - 1];
      assert WithoutMarks(ts)[..|ts| - 1] == WithoutMarks(init);
      AcceptedRecordsWithoutMarks(init);
      AcceptedRecordsConcat(CallsOf(WithoutMarks(init)), NoMarks(ts[|ts| - 1].calls));
      AcceptedRecordsConcat(CallsOf(init), ts[|ts| - 1].calls);
      AcceptedRecordsNoMarks(ts[|ts| - 1].calls);
    }
  }

  /**
   * Validation never consults the plugin's completion flag: taking every
   * `mark_validation_complete` call out of the stream leaves the outcome unchanged.
   */
  lemma ValidateIgnoresCompletionFlag(ts: seq<Turn<Compliance.ComplianceCall>>)
    ensures ValidateResult(WithoutMarks(ts)) == ValidateResult(ts)
  {
    var us := WithoutMarks(ts);
    RunSameEvents(ts, us, ValidationChat.VALIDATION_LOOP);
    if Run(ts, ValidationChat.VALIDATION_LOOP).Completed? {
      var n := Run(ts, ValidationChat.VALIDATION_LOOP).consumed;
      CompletedBound(ts, ValidationChat.VALIDATION_LOOP);
      assert us[..n] == WithoutMarks(ts[..n]);
      AcceptedRecordsWithoutMarks(ts[..n]);
      Compliance.ApplyAllFresh(CallsOf(ts[..n]));
      Compliance.ApplyAllFresh(CallsOf(us[..n]));
    }
  }

  /** The service object: its templates, its compliance plugin and its chat. */
  class DocumentService {
    const verfuegungTemplate: string
    const validationQuestions: string
    const compliancePlugin: Compliance.CompliancePlugin
    const chat: GroupChat

    ghost predicate Valid()
      reads this, compliancePlugin
    {
      compliancePlugin.Valid()
    }

    /** The templates are the contents of the two template files. */
    constructor(verfuegungTemplate: string, validationQuestions: string)
      ensures this.verfuegungTemplate == verfuegungTemplate && this.validationQuestions == validationQuestions
      ensures Valid() && compliancePlugin.State() == Compliance.FRESH && chat.history == []
      ensures fresh(compliancePlugin) && fresh(chat)
    {
      this.verfuegungTemplate := verfuegungTemplate;
      this.validationQuestions := validationQuestions;
      compliancePlugin := new Compliance.CompliancePlugin();
      chat := new GroupChat();
    }

    /** The prompt `generate_document` sends to the model. */
    method CreateGenerationPrompt(ctx: DocumentContext) returns (prompt: string)
      ensures prompt == GenerationPrompt(ctx, verfuegungTemplate)
    {
      var people := ctx.requestedPeople;
      var requestor := ctx.requestor;
      var head := GEN_INTRO + FullName(requestor) + GEN_ADDRESS + AddressOr(requestor, ADDRESS_NOT_AVAILABLE) + GEN_LIST;
      var entries := "";
      var i := 0;
      while i < |people|
        invariant 0 <= i <= |people|
        invariant entries == Terminated(PersonEntries(people[..i]), '\n')
      {
        var person := people[i];
        PersonEntriesSnoc(people, i);
        TerminatedSnoc(PersonEntries(people[..i]), PersonEntry(person), '\n');
        var addr := AddressOr(person, NOT_FOUND);
        var line := "   - " + FullName(person) + ": " + addr;
        assert line == PersonEntry(person);
        entries := entries + line + "\n";
        i := i + 1;
      }
      assert people[..i] == people;
      prompt := head + entries + GEN_PURPOSE + ctx.zweck + GEN_MUNICIPALITY + ctx.gemeinde + GEN_INSTRUCTIONS +
                verfuegungTemplate + "\n";
    }

    /**
     * `generate_document`: the prompt it sends, and the document, which is the model's
     * answer `answer` with surrounding whitespace removed.
     */
    method GenerateDocument(ctx: DocumentContext, answer: string) returns (prompt: string, document: string)
      ensures prompt == GenerationPrompt(ctx, verfuegungTemplate)
      ensures document == Strip(answer) && IsTrimmed(document)
    {
      prompt := CreateGenerationPrompt(ctx);
      document := Strip(answer);
    }

    /** The plugin calls the agent makes while producing `turn`, after those of `done`. */
    method ReplayCalls(ghost done: seq<Turn<Compliance.ComplianceCall>>, turn: Turn<Compliance.ComplianceCall>)
      requires Valid() && compliancePlugin.State() == Compliance.ApplyAll(Compliance.FRESH, CallsOf(done))
      modifies compliancePlugin
      ensures Valid() && compliancePlugin.State() == Compliance.ApplyAll(Compliance.FRESH, CallsOf(done + [turn]))
    {
      RecordedSnoc(done, turn);
      Compliance.ApplyAllConcat(Compliance.FRESH, CallsOf(done), turn.calls);
      compliancePlugin.PerformAll(turn.calls);
    }

    /** The `async for` loop of `validate_document`, as `Run` describes it. */
    method DriveChat(turns: seq<Turn<Compliance.ComplianceCall>>) returns (outcome: Outcome)
      requires Valid() && compliancePlugin.State() == Compliance.FRESH
      modifies compliancePlugin
      ensures Valid()
      ensures outcome == Run(turns, ValidationChat.VALIDATION_LOOP)
      ensures compliancePlugin.State() == FinalState(turns)
    {
      var cfg := ValidationChat.VALIDATION_LOOP;
      var messages: seq<AgentMessage> := [];
      var count := 0;
      var i := 0;
      while i < |turns|
        invariant 0 <= i <= |turns| && count == i
        invariant FirstStop(turns, cfg, 0) == FirstStop(turns, cfg, i)
        invariant messages == Recorded(turns[..i])
        invariant Valid() && compliancePlugin.State() == Compliance.ApplyAll(Compliance.FRESH, CallsOf(turns[..i]))
      {
        var turn := turns[i];
        assert turns[..i + 1] == turns[..i] + [turn];
        RecordedSnoc(turns[..i], turn);
        ReplayCalls(turns[..i], turn);
        StepAt(turns, cfg, i);
        match turn.event
        case Raise(reason) =>
          return Raised(reason);
        case Reply(response) =>
          count := count + 1;
          if count > cfg.budget {
            return OverBudget;
          }
          if response.name.Some? && response.name.value != [] {
            messages := messages + [AgentMessage("assistant", response.name, response.content)];
            if response.name.value == cfg.terminator && Contains(response.content, cfg.marker) {
              return Completed(i + 1, messages);
            }
          }
        i := i + 1;
      }
      assert turns[..i] == turns;
      EndOfStream(turns, cfg);
      return Exhausted;
    }

    /**
     * `validate_document`. The plugin is reset, the seed prompt is added to the chat, the
     * chat is driven, failures inside the loop are wrapped, and on success the report and
     * the results are read from the plugin.
     */
    method ValidateDocument(document: string, turns: seq<Turn<Compliance.ComplianceCall>>)
      returns (r: Result<Validated, Failure>)
      requires Valid()
      modifies compliancePlugin, chat
      ensures Valid()
      ensures r == ValidateResult(turns)
      ensures chat.history == old(chat.history) + [AgentMessage("user", None, ValidationPrompt(document, validationQuestions))]
      ensures compliancePlugin.State() == FinalState(turns)
    {
      compliancePlugin.Reset();
      var prompt := VAL_INTRO + document + VAL_CHECKLIST + validationQuestions + VAL_OUTRO;
      chat.AddChatMessage(AgentMessage("user", None, prompt));
      var outcome := DriveChat(turns);
      match outcome
      case Raised(reason) =>
        return Err(RuntimeError(FAILED + reason));
      case OverBudget =>
        return Err(RuntimeError(FAILED + EXCEEDED + NatToString(MAX_MESSAGE_COUNT) + WITHOUT_COMPLETION));
      case Exhausted =>
        return Err(RuntimeError(INCOMPLETE));
      case Completed(n, messages) =>
        CompletedBound(turns, ValidationChat.VALIDATION_LOOP);
        var results := compliancePlugin.GetValidationResults();
        var report := compliancePlugin.FormatMarkdownReport();
        return Ok(Validated(report, results, messages));
    }
  }
}
