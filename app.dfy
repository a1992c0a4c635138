/**
 * The logic behind the web front end: reading the default requestor, re-splitting a pasted
 * "Last, First" requestor, parsing the people list, and turning the services' messages into
 * the (user, assistant) pairs of the chat display.
 */
module App {
  import opened Wrappers
  import opened Strings
  import opened Core
  import opened TurnLoop
  import Report
  import Compliance
  import AgentChat
  import AddressService
  import DocumentSvc

  const INVALID_FORMAT: string := "Invalid format for person: "
  const VERIFICATION_PURPOSE: string := "Address Verification"
  const VERIFY_ERROR: string := "⚠️ Error: "
  const VALIDATION_ERROR: string := "⚠️ Validation error: "

  /**
   * The default requestor's (firstname, lastname): "Last, First" when splitting at commas
   * gives exactly two parts, both trimmed; otherwise both stay empty.
   */
  function DefaultRequestor(s: string): (string, string) {
    if s == [] then ("", "")
    else
      var parts := SplitOn(s, ',');
      if |parts| == 2 then (Strip(parts[1]), Strip(parts[0])) else ("", "")
  }

  /** A single comma between a last and a first name gives those names, trimmed. */
  lemma DefaultRequestorOneComma(lastname: string, firstname: string)
    requires ',' !in lastname && ',' !in firstname
    ensures DefaultRequestor(lastname + "," + firstname) == (Strip(firstname), Strip(lastname))
  {
    SplitOnceOf(lastname, ',', firstname);
    SplitOnAbsent(firstname, ',');
  }

  /** Without exactly one comma the defaults stay empty. */
  lemma DefaultRequestorOtherwise(s: string)
    requires CountChar(s, ',') != 1
    ensures DefaultRequestor(s) == ("", "")
  {
    SplitOnLength(s, ',');
  }

  /**
   * The requestor's names as the address handler uses them: a comma in the first-name field
   * means a pasted "Last, First", which is split at the first comma and trimmed; otherwise
   * the fields are used as they are.
   */
  function RequestorNames(firstname: string, lastname: string): (r: (string, string))
    ensures ',' !in firstname ==> r == (firstname, lastname)
  {
    match SplitOnce(firstname, ',')
    case Some((last, first)) => (Strip(first), Strip(last))
    case None => (firstname, lastname)
  }

  lemma RequestorNamesResplit(last: string, first: string, lastname: string)
    requires ',' !in last
    ensures RequestorNames(last + "," + first, lastname) == (Strip(first), Strip(last))
  {
    SplitOnceOf(last, ',', first);
  }

  /**
   * One trimmed, non-empty line of the people list: "Last, First" at the first comma, or
   * "First Last..." split at whitespace, where fewer than two words is an error.
   */
  function ParseLine(line: string): (r: Result<Person, string>)
    ensures r.Ok? ==> r.value.ptype == Requested && r.value.address.None? && r.value.city.None?
    ensures r.Err? ==> r.error == INVALID_FORMAT + line
  {
    match SplitOnce(line, ',')
    case Some((last, first)) => Ok(NewPerson(Strip(first), Strip(last), None, None, Requested))
    case None =>
      var parts := SplitWs(line);
      if |parts| < 2 then Err(INVALID_FORMAT + line)
      else Ok(NewPerson(parts[0], Join(parts[1..], " "), None, None, Requested))
  }

  /** A line is refused exactly when it has no comma and fewer than two words. */
  lemma ParseLineErrIff(line: string)
    ensures ParseLine(line).Err? <==> ',' !in line && |SplitWs(line)| < 2
  {
  }

  /** A "Last, First" line gives those names, trimmed. */
  lemma ParseLineComma(last: string, first: string)
    requires ',' !in last
    ensures ParseLine(last + "," + first) == Ok(NewPerson(Strip(first), Strip(last), None, None, Requested))
  {
    SplitOnceOf(last, ',', first);
  }

  /** A line without a comma: the first word is the first name, the other words, single-spaced, the last name. */
  lemma ParseLineWords(line: string)
    requires ',' !in line && |SplitWs(line)| >= 2
    ensures ParseLine(line).Ok?
    ensures ParseLine(line).value.firstname == SplitWs(line)[0]
    ensures ParseLine(line).value.lastname == Join(SplitWs(line)[1..], " ")
  {
    var ws := SplitWs(line);
    assert SplitOnce(line, ',').None?;
    var first, last := ws[0], Join(ws[1..], " ");
    assert ParseLine(line) == Ok(NewPerson(first, last, None, None, Requested));
    assert IsWord(first);
    StripTrimmed(first);
    forall k | 0 <= k < |ws[1..]|
      ensures IsWord(ws[1..][k])
    {
      assert ws[1..][k] == ws[k + 1];
    }
    JoinWordsTrimmed(ws[1..]);
    assert NewPerson(first, last, None, None, Requested).firstname == Strip(first);
  }

  /** The trimmed lines that are not blank, in order. */
  function NonBlank(lines: seq<string>): (r: seq<string>)
    ensures |r| <= |lines|
  {
    if lines == [] then []
    else
      var l := Strip(lines[|lines| - 1]);
      var r0 := NonBlank(lines[..|lines| - 1]);
      if l == [] then r0 else r0 + [l]
  }

  /** The kept lines are trimmed and non-empty. */
  lemma {:induction false} NonBlankTrimmed(lines: seq<string>)
    ensures forall i | 0 <= i < |NonBlank(lines)| :: NonBlank(lines)[i] != [] && IsTrimmed(NonBlank(lines)[i])
  {
    if lines != [] {
      var init := lines[..|lines| - 1];
      NonBlankTrimmed(init);
      var l := Strip(lines[|lines| - 1]);
      var r0 := NonBlank(init);
      if l != [] {
        forall i | 0 <= i < |r0 + [l]|
          ensures (r0 + [l])[i] != [] && IsTrimmed((r0 + [l])[i])
        {
          if i < |r0| {
            assert (r0 + [l])[i] == r0[i];
          }
        }
      }
    }
  }

  /**
   * The loop of `parse_people_list` over `lines`, each non-blank trimmed line read by `parse`:
   * blank lines are skipped and the first line that does not parse stops it.
   */
  function ParseLines<T>(lines: seq<string>, parse: string -> Result<T, string>): Result<seq<T>, string> {
    if lines == [] then Ok([])
    else match ParseLines(lines[..|lines| - 1], parse)
      case Err(e) => Err(e)
      case Ok(people) =>
        var l := Strip(lines[|lines| - 1]);
        if l == [] then Ok(people)
        else match parse(l)
          case Err(e) => Err(e)
          case Ok(p) => Ok(people + [p])
  }

  /** One more line read by the loop, once the lines before it have parsed to `people`. */
  lemma ParseLinesStep<T>(lines: seq<string>, i: nat, parse: string -> Result<T, string>, people: seq<T>)
    requires i < |lines| && ParseLines(lines[..i], parse) == Ok(people)
    ensures ParseLines(lines[..i + 1], parse) ==
      if Strip(lines[i]) == [] then Ok(people)
      else match parse(Strip(lines[i]))
        case Err(e) => Err(e)
        case Ok(p) => Ok(people + [p])
  {
    assert lines[..i + 1][..i] == lines[..i];
  }

  /** `parse_people_list(text)`. */
  function PeopleList(text: string): Result<seq<Person>, string> {
    ParseLines(SplitOn(Strip(text), '\n'), ParseLine)
  }

  /**
   * Parsing succeeds exactly when every non-blank line parses; its results are then those
   * lines' results, one per line, in line order.
   */
  lemma {:induction false} ParseLinesOk<T>(lines: seq<string>, parse: string -> Result<T, string>)
    ensures ParseLines(lines, parse).Ok? <==> forall i | 0 <= i < |NonBlank(lines)| :: parse(NonBlank(lines)[i]).Ok?
    ensures ParseLines(lines, parse).Ok? ==>
      |ParseLines(lines, parse).value| == |NonBlank(lines)| &&
      forall i | 0 <= i < |NonBlank(lines)| :: parse(NonBlank(lines)[i]) == Ok(ParseLines(lines, parse).value[i])
  {
    if lines != [] {
      var init := lines[..|lines| - 1];
      ParseLinesOk(init, parse);
      var l := Strip(lines[|lines| - 1]);
      var nb := NonBlank(init);
      if l == [] {
        assert NonBlank(lines) == nb;
        assert ParseLines(lines, parse) == ParseLines(init, parse);
      } else {
        var all := nb + [l];
        assert NonBlank(lines) == all;
        assert forall i | 0 <= i < |nb| :: all[i] == nb[i];
        match ParseLines(init, parse)
        case Err(e) =>
          assert ParseLines(lines, parse) == Err(e);
          var i :| 0 <= i < |nb| && !parse(nb[i]).Ok?;
          assert !parse(all[i]).Ok?;
        case Ok(ps) =>
          match parse(l)
          case Err(e) =>
            assert ParseLines(lines, parse) == Err(e);
            assert all[|nb|] == l;
          case Ok(q) =>
            ParseLinesSnocOk(lines, parse, ps, q);
            ParsedAppend(parse, ps, q, nb, l);
      }
    }
  }

  lemma ParseLinesSnocOk<T>(lines: seq<string>, parse: string -> Result<T, string>, ps: seq<T>, q: T)
    requires lines != [] && Strip(lines[|lines| - 1]) != []
    requires ParseLines(lines[..|lines| - 1], parse) == Ok(ps) && parse(Strip(lines[|lines| - 1])) == Ok(q)
    ensures ParseLines(lines, parse) == Ok(ps + [q])
  {
  }

  lemma ParsedAppend<T>(parse: string -> Result<T, string>, ps: seq<T>, q: T, nb: seq<string>, l: string)
    requires parse(l) == Ok(q)
    requires |ps| == |nb| && forall i | 0 <= i < |nb| :: parse(nb[i]) == Ok(ps[i])
    ensures forall i | 0 <= i < |nb + [l]| :: parse((nb + [l])[i]) == Ok((ps + [q])[i])
  {
    forall i | 0 <= i < |nb + [l]|
      ensures parse((nb + [l])[i]) == Ok((ps + [q])[i])
    {
      if i < |nb| {
        assert (nb + [l])[i] == nb[i] && (ps + [q])[i] == ps[i];
      }
    }
  }

  /** The position of the first line in `nb` that `parse` refuses, or `|nb|` when it refuses none. */
  function FirstBad<T>(nb: seq<string>, parse: string -> Result<T, string>): (r: nat)
    ensures r <= |nb|
    ensures forall j | 0 <= j < r :: parse(nb[j]).Ok?
    ensures r < |nb| ==> parse(nb[r]).Err?
  {
    if nb == [] then 0
    else
      var k := FirstBad(nb[..|nb| - 1], parse);
      if k < |nb| - 1 then k else if parse(nb[|nb| - 1]).Err? then |nb| - 1 else |nb|
  }

  /** A failed parse reports the error of the first non-blank line that does not parse. */
  lemma {:induction false} ParseLinesError<T>(lines: seq<string>, parse: string -> Result<T, string>)
    requires ParseLines(lines, parse).Err?
    ensures var nb := NonBlank(lines);
      FirstBad(nb, parse) < |nb| && parse(nb[FirstBad(nb, parse)]) == Err(ParseLines(lines, parse).error)
  {
    var init := lines[..|lines| - 1];
    var l := Strip(lines[|lines| - 1]);
    var nb0 := NonBlank(init);
    if l == [] {
      assert NonBlank(lines) == nb0;
      ParseLinesError(init, parse);
    } else {
      var nb := nb0 + [l];
      assert NonBlank(lines) == nb;
      assert nb[..|nb| - 1] == nb0;
      if ParseLines(init, parse).Err? {
        ParseLinesError(init, parse);
        assert nb[FirstBad(nb0, parse)] == nb0[FirstBad(nb0, parse)];
      } else {
        ParseLinesOk(init, parse);
        assert FirstBad(nb0, parse) == |nb0|;
        assert nb[|nb0|] == l;
      }
    }
  }

  /** Once a prefix has failed, the whole list fails the same way. */
  lemma {:induction false} ParseLinesPrefixError<T>(lines: seq<string>, n: nat, parse: string -> Result<T, string>)
    requires n <= |lines| && ParseLines(lines[..n], parse).Err?
    ensures ParseLines(lines, parse) == ParseLines(lines[..n], parse)
    decreases |lines| - n
  {
    if n < |lines| {
      assert lines[..n + 1][..n] == lines[..n];
      ParseLinesPrefixError(lines, n + 1, parse);
    } else {
      assert lines[..n] == lines;
    }
  }

  /** The parsed people are all requested people without an address. */
  lemma PeopleListRequested(text: string)
    requires PeopleList(text).Ok?
    ensures forall i | 0 <= i < |PeopleList(text).value| ::
      PeopleList(text).value[i].ptype == Requested && PeopleList(text).value[i].address.None?
  {
    var lines := SplitOn(Strip(text), '\n');
    ParseLinesOk(lines, ParseLine);
    forall i | 0 <= i < |PeopleList(text).value|
      ensures PeopleList(text).value[i].ptype == Requested && PeopleList(text).value[i].address.None?
    {
      assert ParseLine(NonBlank(lines)[i]) == Ok(PeopleList(text).value[i]);
    }
  }

  /**
   * A refused people list names the first non-blank line that has no comma and fewer than
   * two words.
   */
  lemma PeopleListError(text: string)
    requires PeopleList(text).Err?
    ensures var nb := NonBlank(SplitOn(Strip(text), '\n'));
      var k := FirstBad(nb, ParseLine);
      k < |nb| && PeopleList(text).error == INVALID_FORMAT + nb[k] &&
      ',' !in nb[k] && |SplitWs(nb[k])| < 2
  {
    var nb := NonBlank(SplitOn(Strip(text), '\n'));
    ParseLinesError(SplitOn(Strip(text), '\n'), ParseLine);
    ParseLineErrIff(nb[FirstBad(nb, ParseLine)]);
  }

  /** `parse_people_list`. */
  method ParsePeopleList(text: string) returns (r: Result<seq<Person>, string>)
    ensures r == PeopleList(text)
  {
    var lines := SplitOn(Strip(text), '\n');
    var parse := ParseLine;
    var people: seq<Person> := [];
    var i := 0;
    while i < |lines|
      invariant 0 <= i <= |lines|
      invariant ParseLines(lines[..i], parse) == Ok(people)
    {
      ParseLinesStep(lines, i, parse, people);
      var line := Strip(lines[i]);
      if line != [] {
        var parsed := parse(line);
        if parsed.Err? {
          ParseLinesPrefixError(lines, i + 1, parse);
          return Err(parsed.error);
        }
        people := people + [parsed.value];
      }
      i := i + 1;
    }
    assert lines[..i] == lines;
    return Ok(people);
  }

  /** One row of the chat display: the user's side and the assistant's side. */
  datatype ChatEntry = ChatEntry(user: Option<string>, assistant: Option<string>)

  /** Python's rendering of `msg['name']`. */
  function NameText(name: Option<string>): string {
    if name.Some? then name.value else "None"
  }

  /** The display row of a message: assistants on the right, users on the left, others dropped. */
  function EntryOf(m: AgentMessage): seq<ChatEntry> {
    if m.role == "assistant" then [ChatEntry(None, Some(NameText(m.name) + ": " + m.content))]
    else if m.role == "user" then [ChatEntry(Some(m.content), None)]
    else []
  }

  /** The chat display for the messages `ms`, in order. */
  function ChatEntries(ms: seq<AgentMessage>): seq<ChatEntry> {
    if ms == [] then [] else ChatEntries(ms[..|ms| - 1]) + EntryOf(ms[|ms| - 1])
  }

  /** The conversion loop of the two handlers. */
  method ToChatEntries(ms: seq<AgentMessage>) returns (entries: seq<ChatEntry>)
    ensures entries == ChatEntries(ms)
  {
    entries := [];
    var i := 0;
    while i < |ms|
      invariant 0 <= i <= |ms|
      invariant entries == ChatEntries(ms[..i])
    {
      assert ms[..i + 1][..i] == ms[..i];
      var msg := ms[i];
      if msg.role == "assistant" {
        entries := entries + [ChatEntry(None, Some(NameText(msg.name) + ": " + msg.content))];
      } else if msg.role == "user" {
        entries := entries + [ChatEntry(Some(msg.content), None)];
      }
      i := i + 1;
    }
    assert ms[..i] == ms;
  }

  /** Every assistant message becomes one "name: content" row on the assistant's side, in order. */
  lemma {:induction false} ChatEntriesOfAssistants(ms: seq<AgentMessage>)
    requires forall i | 0 <= i < |ms| :: ms[i].role == "assistant"
    ensures |ChatEntries(ms)| == |ms|
    ensures forall i | 0 <= i < |ms| ::
      ChatEntries(ms)[i] == ChatEntry(None, Some(NameText(ms[i].name) + ": " + ms[i].content))
  {
    if ms != [] {
      ChatEntriesOfAssistants(ms[..|ms| - 1]);
    }
  }

  /** The rows for the messages a chat loop recorded: one assistant row per named answer, by name. */
  lemma ChatEntriesOfRecorded<C>(ts: seq<Turn<C>>)
    ensures |ChatEntries(Recorded(ts))| == |Recorded(ts)|
    ensures forall i | 0 <= i < |Recorded(ts)| ::
      ChatEntries(Recorded(ts))[i] ==
        ChatEntry(None, Some(NameText(Recorded(ts)[i].name) + ": " + Recorded(ts)[i].content))
  {
    RecordedLength(ts);
    ChatEntriesOfAssistants(Recorded(ts));
  }

  /** A completed loop shows at most its budget of rows, all on the assistant's side. */
  lemma CompletedRows<C>(ts: seq<Turn<C>>, cfg: LoopConfig)
    requires Run(ts, cfg).Completed?
    ensures var rows := ChatEntries(Run(ts, cfg).messages);
      |rows| <= cfg.budget && forall i | 0 <= i < |rows| :: rows[i].user.None? && rows[i].assistant.Some?
  {
    CompletedBound(ts, cfg);
    var n := Run(ts, cfg).consumed;
    var msgs := Recorded(ts[..n]);
    assert Run(ts, cfg).messages == msgs;
    ChatEntriesOfRecorded(ts[..n]);
    var rows := ChatEntries(msgs);
    forall i | 0 <= i < |rows|
      ensures rows[i].user.None? && rows[i].assistant.Some?
    {
      assert rows[i] == ChatEntry(None, Some(NameText(msgs[i].name) + ": " + msgs[i].content));
    }
  }

  /** The document context the address handler builds, or the message of the check that refused it. */
  function HandlerContext(reqFirstname: string, reqLastname: string, gemeinde: string, peopleText: string)
    : Result<DocumentContext, string>
  {
    var (first, last) := RequestorNames(reqFirstname, reqLastname);
    var requestor := NewPerson(first, last, None, None, Requestor);
    match PeopleList(peopleText)
    case Err(e) => Err(e)
    case Ok(people) => NewDocumentContext(requestor, people, gemeinde, VERIFICATION_PURPOSE)
  }

  /** The verification's summary and rows, or the error text and no rows. */
  function VerifyShown(r: Result<AddressService.Verified, Failure>): (string, seq<ChatEntry>) {
    match r
    case Err(f) => (VERIFY_ERROR + f.msg, [])
    case Ok(v) => (v.summary, ChatEntries(v.messages))
  }

  /** What the address handler shows: the summary and the rows, or the error text and no rows. */
  function VerifyHandlerResult(reqFirstname: string, reqLastname: string, gemeinde: string, peopleText: string,
                               ts: seq<Turn<Report.ReportCall>>): (string, seq<ChatEntry>) {
    match HandlerContext(reqFirstname, reqLastname, gemeinde, peopleText)
    case Err(e) => (VERIFY_ERROR + e, [])
    case Ok(ctx) => VerifyShown(AddressService.VerifyResult(ctx, ts))
  }

  /** A chat verification shows at most its budget of rows, all on the assistant's side. */
  lemma ChatShownRows(ts: seq<Turn<Report.ReportCall>>, cfg: LoopConfig)
    ensures var rows := VerifyShown(AddressService.ChatResult(ts, cfg)).1;
      |rows| <= cfg.budget && forall i | 0 <= i < |rows| :: rows[i].user.None? && rows[i].assistant.Some?
  {
    if Run(ts, cfg).Completed? {
      CompletedRows(ts, cfg);
    }
  }

  /** A verification shows at most 20 rows, all of them named answers on the assistant's side. */
  lemma VerifyShownRows(ctx: DocumentContext, ts: seq<Turn<Report.ReportCall>>)
    ensures var rows := VerifyShown(AddressService.VerifyResult(ctx, ts)).1;
      |rows| <= MAX_MESSAGE_COUNT && forall i | 0 <= i < |rows| :: rows[i].user.None? && rows[i].assistant.Some?
  {
    if !IsBlank(ctx.gemeinde) {
      ChatShownRows(ts, AgentChat.ADDRESS_LOOP);
    }
  }

  /** Whatever the input, the address handler shows at most 20 rows, all on the assistant's side. */
  lemma VerifyHandlerRows(reqFirstname: string, reqLastname: string, gemeinde: string, peopleText: string,
                          ts: seq<Turn<Report.ReportCall>>)
    ensures var rows := VerifyHandlerResult(reqFirstname, reqLastname, gemeinde, peopleText, ts).1;
      |rows| <= MAX_MESSAGE_COUNT && forall i | 0 <= i < |rows| :: rows[i].user.None? && rows[i].assistant.Some?
  {
    var c := HandlerContext(reqFirstname, reqLastname, gemeinde, peopleText);
    if c.Ok? {
      VerifyShownRows(c.value, ts);
    }
  }

  /** The address handler of the front end. */
  method VerifyAddressesHandler(service: AddressService.AddressVerificationService,
                                reqFirstname: string, reqLastname: string, gemeinde: string, peopleText: string,
                                turns: seq<Turn<Report.ReportCall>>)
    returns (shown: string, rows: seq<ChatEntry>)
    requires service.Valid()
    modifies service.reportPlugin, service.chat
    ensures service.Valid()
    ensures (shown, rows) == VerifyHandlerResult(reqFirstname, reqLastname, gemeinde, peopleText, turns)
  {
    var firstname, lastname := reqFirstname, reqLastname;
    if ',' in firstname {
      var parts := SplitOnce(firstname, ',').value;
      lastname, firstname := Strip(parts.0), Strip(parts.1);
    }
    var requestor := NewPerson(firstname, lastname, None, None, Requestor);
    var people := ParsePeopleList(peopleText);
    if people.Err? {
      return VERIFY_ERROR + people.error, [];
    }
    var context := NewDocumentContext(requestor, people.value, gemeinde, VERIFICATION_PURPOSE);
    if context.Err? {
      return VERIFY_ERROR + context.error, [];
    }
    var result := service.VerifyAddresses(context.value, turns);
    if result.Err? {
      return VERIFY_ERROR + result.error.msg, [];
    }
    rows := ToChatEntries(result.value.messages);
    shown := result.value.summary;
  }

  /** What the validation handler shows: the report and the rows, or the error text and no rows. */
  function ValidateHandlerResult(ts: seq<Turn<Compliance.ComplianceCall>>): (string, seq<ChatEntry>) {
    match DocumentSvc.ValidateResult(ts)
    case Err(f) => (VALIDATION_ERROR + f.msg, [])
    case Ok(v) => (v.report, ChatEntries(v.messages))
  }

  /** The validation handler of the front end. */
  method ValidateDocumentHandler(service: DocumentSvc.DocumentService, documentText: string,
                                 turns: seq<Turn<Compliance.ComplianceCall>>)
    returns (shown: string, rows: seq<ChatEntry>)
    requires service.Valid()
    modifies service.compliancePlugin, service.chat
    ensures service.Valid()
    ensures (shown, rows) == ValidateHandlerResult(turns)
  {
    var result := service.ValidateDocument(documentText, turns);
    if result.Err? {
      return VALIDATION_ERROR + result.error.msg, [];
    }
    rows := ToChatEntries(result.value.messages);
    shown := result.value.report;
  }
}
