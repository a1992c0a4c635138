/**
 * The store the validator agent writes checklist results into. A save validates one parsed
 * record and appends it; the results can be grouped by section and rendered as a Markdown
 * checklist.
 */
module Compliance {
  import opened Wrappers
  import opened Strings
  import opened Json
  import opened OrderedDict

  /** The fields every validation result must carry. */
  const REQUIRED: seq<string> := ["section", "item", "status"]

  /** The argument of `save_validation_result` after `json.loads`, or the decode error and the raw text. */
  datatype ValidationInput = ValidationUnparsable(reason: string, raw: string) | ValidationObject(data: Record)

  /** A call the validation agents can make on the plugin. */
  datatype ComplianceCall = SaveValidationResult(input: ValidationInput) | MarkValidationComplete

  /** What the plugin holds: `compliance_items` and `is_complete`. */
  datatype ComplianceState = ComplianceState(items: seq<Record>, isComplete: bool)

  /** The state of a new plugin, and of one after `reset`. */
  const FRESH: ComplianceState := ComplianceState([], false)

  const NO_RESULTS: string := "Keine Validierungsergebnisse vorhanden."

  predicate StatusOk(v: JValue) {
    v == JStr("passed") || v == JStr("failed")
  }

  /** The record as stored: `details` is set to None when it is absent. */
  function WithDetails(data: Record): (r: Record)
    ensures "details" in r
    ensures forall k | k in data :: k in r && r[k] == data[k]
    ensures forall k | k in r :: k in data || (k == "details" && r[k] == JNull)
  {
    if "details" in data then data else data["details" := JNull]
  }

  /** `all(field in data for field in required)`. */
  predicate HasRequired(data: Record) {
    "section" in data && "item" in data && "status" in data
  }

  /** The error path lists exactly the fields whose absence it reports. */
  lemma MissingIff(data: Record)
    ensures Missing(data, REQUIRED) == [] <==> HasRequired(data)
    ensures forall f | f in Missing(data, REQUIRED) :: f in REQUIRED && f !in data
  {
    assert REQUIRED[0] == "section" && REQUIRED[1] == "item" && REQUIRED[2] == "status";
  }

  /** A record the plugin accepts, once its `details` is filled in. */
  predicate Acceptable(data: Record) {
    HasRequired(data) && StatusOk(data["status"])
  }

  /** What a stored item looks like. */
  predicate Stored(r: Record) {
    Acceptable(r) && "details" in r
  }

  function ParseErrorMessage(reason: string, raw: string): string {
    "Error parsing JSON data: " + reason + ". Input was: " + raw
  }

  function MissingMessage(data: Record): string {
    "Error: Missing required fields " + FieldList(Missing(data, REQUIRED))
  }

  function StatusMessage(status: JValue): string {
    "Error: status must be 'passed' or 'failed', got " + Str(status)
  }

  function SavedMessage(data: Record): string
    requires "section" in data && "item" in data
  {
    "Successfully saved validation result for " + Str(data["section"]) + ": " + Str(data["item"])
  }

  /**
   * `save_validation_result`: the new state and the returned message. The missing-field check
   * comes before the status check; only a record passing both is appended, as one item at the
   * end, and the completion flag is never touched.
   */
  function SaveResult(st: ComplianceState, input: ValidationInput): (r: (ComplianceState, string))
    ensures input.ValidationUnparsable? ==> r == (st, ParseErrorMessage(input.reason, input.raw))
    ensures input.ValidationObject? && !HasRequired(input.data) ==> r == (st, MissingMessage(input.data))
    ensures input.ValidationObject? && HasRequired(input.data) && !StatusOk(input.data["status"]) ==>
      r == (st, StatusMessage(input.data["status"]))
    ensures input.ValidationObject? && Acceptable(input.data) ==>
      r.0 == ComplianceState(st.items + [WithDetails(input.data)], st.isComplete) &&
      r.1 == SavedMessage(input.data)
    ensures r.0.isComplete == st.isComplete
  {
    match input
    case ValidationUnparsable(reason, raw) => (st, ParseErrorMessage(reason, raw))
    case ValidationObject(data) =>
      if !HasRequired(data) then (st, MissingMessage(data))
      else if !StatusOk(data["status"]) then (st, StatusMessage(data["status"]))
      else (ComplianceState(st.items + [WithDetails(data)], st.isComplete), SavedMessage(data))
  }

  /** The effect of one call on the plugin's state. */
  function Apply(st: ComplianceState, c: ComplianceCall): ComplianceState {
    match c
    case SaveValidationResult(input) => SaveResult(st, input).0
    case MarkValidationComplete => ComplianceState(st.items, true)
  }

  /** The state after the calls `cs`, made in order, starting from `st`. */
  function ApplyAll(st: ComplianceState, cs: seq<ComplianceCall>): ComplianceState {
    if cs == [] then st else Apply(ApplyAll(st, cs[..|cs| - 1]), cs[|cs| - 1])
  }

  /** Making the calls `a` and then the calls `b` is making the calls `a + b`. */
  lemma {:induction false} ApplyAllConcat(st: ComplianceState, a: seq<ComplianceCall>, b: seq<ComplianceCall>)
    ensures ApplyAll(st, a + b) == ApplyAll(ApplyAll(st, a), b)
  {
    if b == [] {
      assert a + b == a;
    } else {
      assert (a + b)[..|a + b| - 1] == a + b[..|b| - 1];
      ApplyAllConcat(st, a, b[..|b| - 1]);
    }
  }

  predicate AcceptedSave(c: ComplianceCall) {
    c.SaveValidationResult? && c.input.ValidationObject? && Acceptable(c.input.data)
  }

  /** The stored form of every accepted save among `cs`, in call order, duplicates kept. */
  function AcceptedRecords(cs: seq<ComplianceCall>): seq<Record> {
    if cs == [] then []
    else
      var c := cs[|cs| - 1];
      AcceptedRecords(cs[..|cs| - 1]) + (if AcceptedSave(c) then [WithDetails(c.input.data)] else [])
  }

  /**
   * Whatever calls a run makes on a fresh plugin, it ends holding exactly the accepted
   * records in call order, and it is complete exactly when `mark_validation_complete` was
   * among the calls: saving never completes it.
   */
  lemma {:induction false} ApplyAllFresh(cs: seq<ComplianceCall>)
    ensures ApplyAll(FRESH, cs).items == AcceptedRecords(cs)
    ensures ApplyAll(FRESH, cs).isComplete <==> exists i | 0 <= i < |cs| :: cs[i].MarkValidationComplete?
  {
    if cs != [] {
      var init := cs[..|cs| - 1];
      ApplyAllFresh(init);
      if exists i | 0 <= i < |cs| :: cs[i].MarkValidationComplete? {
        var i :| 0 <= i < |cs| && cs[i].MarkValidationComplete?;
        if i < |init| {
          assert init[i] == cs[i];
        }
      }
      if exists i | 0 <= i < |init| :: init[i].MarkValidationComplete? {
        var i :| 0 <= i < |init| && init[i].MarkValidationComplete?;
        assert cs[i] == init[i];
      }
    }
  }

  predicate AllStored(items: seq<Record>) {
    forall i | 0 <= i < |items| :: Stored(items[i])
  }

  lemma {:induction false} AcceptedRecordsStored(cs: seq<ComplianceCall>)
    ensures AllStored(AcceptedRecords(cs))
  {
    if cs != [] {
      AcceptedRecordsStored(cs[..|cs| - 1]);
    }
  }

  /** Each item paired with its section, as `get_validation_summary` visits them. */
  function SectionPairs(items: seq<Record>): seq<(JValue, Record)> {
    seq(|items|, i requires 0 <= i < |items| => (Lookup(items[i], "section"), items[i]))
  }

  /** `get_validation_summary`: the items grouped by section. */
  function Summary(items: seq<Record>): ODict<JValue, seq<Record>> {
    GroupPairs(SectionPairs(items))
  }

  /**
   * The summary's keys are the distinct sections in first-seen order; each maps to the
   * items of that section in insertion order; together the lists hold every item once.
   */
  lemma SummaryFacts(items: seq<Record>, section: JValue)
    ensures Keys(Summary(items)) == Dedup(Keys(SectionPairs(items)))
    ensures Get(Summary(items), section) ==
            if section in Keys(SectionPairs(items)) then Some(ValuesOf(SectionPairs(items), section)) else None
    ensures TotalLen(Summary(items)) == |items|
  {
    GroupPairsKeys(SectionPairs(items));
    GroupPairsGet(SectionPairs(items), section);
    GroupPairsTotal(SectionPairs(items));
  }

  function Checkbox(item: Record): string {
    if Lookup(item, "status") == JStr("passed") then "✅" else "❌"
  }

  /** The line that reports an item's outcome. */
  function ItemLine(item: Record): string {
    Checkbox(item) + " " + Str(Lookup(item, "item"))
  }

  /** An item's line, then its details when they are truthy. */
  function ItemLines(item: Record): seq<string> {
    [ItemLine(item)] + if "details" in item && Truthy(item["details"]) then ["   - " + Str(item["details"])] else []
  }

  function ItemsLines(items: seq<Record>): seq<string> {
    if items == [] then [] else ItemsLines(items[..|items| - 1]) + ItemLines(items[|items| - 1])
  }

  function SectionLines(section: JValue, items: seq<Record>): seq<string> {
    ["\n### " + Str(section)] + ItemsLines(items)
  }

  /** The report's lines: each section's heading followed by its items. */
  function ReportLines(summary: ODict<JValue, seq<Record>>): seq<string> {
    if summary == [] then []
    else
      var last := summary[|summary| - 1];
      ReportLines(summary[..|summary| - 1]) + SectionLines(last.0, last.1)
  }

  /** `format_markdown_report`. */
  function MarkdownReport(items: seq<Record>): string {
    if items == [] then NO_RESULTS else Join(ReportLines(Summary(items)), "\n")
  }

  lemma {:induction false} ItemsLinesHas(items: seq<Record>, i: nat)
    requires i < |items|
    ensures ItemLine(items[i]) in ItemsLines(items)
  {
    var init := items[..|items| - 1];
    if i < |init| {
      ItemsLinesHas(init, i);
    } else {
      assert ItemLines(items[i])[0] == ItemLine(items[i]);
    }
  }

  lemma {:induction false} ReportLinesHas(summary: ODict<JValue, seq<Record>>, j: nat, i: nat)
    requires j < |summary| && i < |summary[j].1|
    ensures ItemLine(summary[j].1[i]) in ReportLines(summary)
  {
    var init := summary[..|summary| - 1];
    if j < |init| {
      ReportLinesHas(init, j, i);
    } else {
      ItemsLinesHas(summary[j].1, i);
    }
  }

  lemma {:induction false} ValuesOfHas(es: seq<(JValue, Record)>, i: nat)
    requires i < |es|
    ensures es[i].1 in ValuesOf(es, es[i].0)
  {
    var init := es[..|es| - 1];
    if i < |init| {
      ValuesOfHas(init, i);
    }
  }

  /** Every stored item appears in the report with its checkbox line. */
  lemma ReportHasEveryItem(items: seq<Record>, i: nat)
    requires i < |items|
    ensures ItemLine(items[i]) in ReportLines(Summary(items))
  {
    var ps := SectionPairs(items);
    var section := ps[i].0;
    ValuesOfHas(ps, i);
    assert Keys(ps)[i] == section;
    SummaryFacts(items, section);
    var vs := ValuesOf(ps, section);
    var j :| 0 <= j < |Summary(items)| && Summary(items)[j] == (section, vs);
    var k :| 0 <= k < |vs| && vs[k] == items[i];
    ReportLinesHas(Summary(items), j, k);
  }

  /** A non-empty report starts with the heading of the first item's section. */
  lemma ReportStartsWithFirstSection(items: seq<Record>)
    requires items != []
    ensures var lines := ReportLines(Summary(items));
      lines != [] && lines[0] == "\n### " + Str(Lookup(items[0], "section"))
  {
    var g := Summary(items);
    SummaryFacts(items, JNull);
    assert Keys(SectionPairs(items))[0] == Lookup(items[0], "section");
    DedupHead(Keys(SectionPairs(items)));
    ReportLinesHead(g);
  }

  lemma {:induction false} ReportLinesHead(summary: ODict<JValue, seq<Record>>)
    requires summary != []
    ensures ReportLines(summary) != [] && ReportLines(summary)[0] == "\n### " + Str(summary[0].0)
  {
    if |summary| > 1 {
      ReportLinesHead(summary[..|summary| - 1]);
    }
  }

  lemma ItemsLinesSnoc(items: seq<Record>, item: Record)
    ensures ItemsLines(items + [item]) == ItemsLines(items) + ItemLines(item)
  {
    assert (items + [item])[..|items|] == items;
  }

  /** The lines `format_markdown_report` writes for one section of the summary. */
  method FormatSection(section: JValue, group: seq<Record>) returns (lines: seq<string>)
    ensures lines == SectionLines(section, group)
  {
    var body: seq<string> := [];
    var j := 0;
    while j < |group|
      invariant 0 <= j <= |group|
      invariant body == ItemsLines(group[..j])
    {
      var item := group[j];
      assert group[..j + 1][..j] == group[..j];
      var before := body;
      body := body + [ItemLine(item)];
      if "details" in item && Truthy(item["details"]) {
        body := body + ["   - " + Str(item["details"])];
      }
      assert body == before + ItemLines(item);
      j := j + 1;
    }
    assert group[..j] == group;
    lines := ["\n### " + Str(section)] + body;
  }

  /** The plugin object: its item list and completion flag change in place. */
  class CompliancePlugin {
    var items: seq<Record>
    var isComplete: bool

    /** Every stored item carries the required fields, a valid status and a details entry. */
    ghost predicate Valid()
      reads this
    {
      AllStored(items)
    }

    function State(): ComplianceState
      reads this
    {
      ComplianceState(items, isComplete)
    }

    constructor()
      ensures State() == FRESH && Valid()
    {
      items := [];
      isComplete := false;
    }

    method Reset()
      modifies this
      ensures State() == FRESH && Valid()
    {
      items := [];
      isComplete := false;
    }

    /** `save_validation_result`. */
    method SaveValidationResultCall(input: ValidationInput) returns (msg: string)
      requires Valid()
      modifies this
      ensures (State(), msg) == SaveResult(old(State()), input)
      ensures Valid()
    {
      match input
      case ValidationUnparsable(reason, raw) =>
        return ParseErrorMessage(reason, raw);
      case ValidationObject(data) =>
        if !HasRequired(data) {
          return MissingMessage(data);
        }
        if !StatusOk(data["status"]) {
          return StatusMessage(data["status"]);
        }
        var stored := WithDetails(data);
        items := items + [stored];
        return SavedMessage(data);
    }

    /** `mark_validation_complete`. */
    method MarkValidationCompleteCall() returns (msg: string)
      modifies this
      ensures items == old(items) && isComplete
      ensures msg == "Validation process marked as complete"
    {
      isComplete := true;
      msg := "Validation process marked as complete";
    }

    /** Carries out one call the agent makes. */
    method Perform(c: ComplianceCall)
      requires Valid()
      modifies this
      ensures State() == Apply(old(State()), c) && Valid()
    {
      match c
      case SaveValidationResult(input) =>
        var _ := SaveValidationResultCall(input);
      case MarkValidationComplete =>
        var _ := MarkValidationCompleteCall();
    }

    /** Carries out the calls `cs` in order. */
    method PerformAll(cs: seq<ComplianceCall>)
      requires Valid()
      modifies this
      ensures State() == ApplyAll(old(State()), cs) && Valid()
    {
      var i := 0;
      while i < |cs|
        invariant 0 <= i <= |cs|
        invariant Valid()
        invariant State() == ApplyAll(old(State()), cs[..i])
      {
        assert cs[..i + 1][..i] == cs[..i];
        Perform(cs[i]);
        i := i + 1;
      }
      assert cs[..i] == cs;
    }

    /** `get_validation_results`. */
    function GetValidationResults(): seq<Record>
      reads this
    {
      items
    }

    /** `get_validation_summary`. */
    method GetValidationSummary() returns (summary: ODict<JValue, seq<Record>>)
      requires Valid()
      ensures summary == Summary(items)
    {
      summary := [];
      var i := 0;
      while i < |items|
        invariant 0 <= i <= |items|
        invariant summary == Summary(items[..i])
      {
        var item := items[i];
        assert SectionPairs(items[..i + 1])[..i] == SectionPairs(items[..i]);
        summary := Append(summary, Lookup(item, "section"), item);
        i := i + 1;
      }
      assert items[..i] == items;
    }

    /** `format_markdown_report`. */
    method FormatMarkdownReport() returns (report: string)
      requires Valid()
      ensures report == MarkdownReport(items)
    {
      if items == [] {
        return NO_RESULTS;
      }
      var summary := GetValidationSummary();
      var lines: seq<string> := [];
      var s := 0;
      while s < |summary|
        invariant 0 <= s <= |summary|
        invariant lines == ReportLines(summary[..s])
      {
        var section, group := summary[s].0, summary[s].1;
        assert summary[..s + 1][..s] == summary[..s];
        var sectionLines := FormatSection(section, group);
        lines := lines + sectionLines;
        s := s + 1;
      }
      assert summary[..s] == summary;
      report := Join(lines, "\n");
    }
  }
}
