# AIDCO core, modelled in Dafny

AIDCO prepares official address-disclosure documents for a Swiss municipality. A requestor
names the people whose addresses they want. Two group chats of language-model agents then do
the work:

- **Address verification.** A retriever agent looks the people up online. A report agent
  stores the verified records in the *report plugin* and says `COMPLETE` when it is done.
- **Document validation.** A validator agent checks the generated document item by item and
  stores each result in the *compliance plugin*. A compliance reporter says `COMPLETE` when
  every item has been checked.

This project models the deterministic logic around those chats:

- **Domain model** (`Core`): the person and document-context records and their checks.
- **Plugins** (`Report`, `Compliance`): classes that hold a list and a completion flag and
  change them in place.
- **Chat-driver loop** (`TurnLoop`, `AddressService`, `AddressWorkflow`, `DocumentSvc`),
  which all three services run over a chat.
- **Chat configuration** (`AgentChat`, `ValidationChat`): each chat's agents and how its
  selector's output is read.
- **Front-end logic** (`App`): parsing the people list, re-splitting the requestor's name,
  and turning messages into chat rows.
- **Formatting and post-processing**: name and address formatting of the directory lookup
  (`Telsearch`), the facts and answer clean-up of the template-driven generator
  (`DocumentGenerator`), and the bold-date substitution of the Word export (`Export`).

Some Python behaviour is written out in helper modules:

- `Strings`: `str.strip`, `split`, `split(None)`, `splitlines` and `in`.
- `OrderedDict`: the insertion-ordered `dict`.
- `Json`: scalar JSON values, with Python's truthiness and `str()`.
- `Wrappers`: `Option` and `Result`.

## How the chat is modelled

A chat is a finite stream of turns, `seq<Turn<C>>`. In each turn:

1. The selected agent makes the plugin calls `calls` (automatic function invocation).
2. The turn either yields a response `(name: Option<string>, content: string)` or raises.

The driver loops are `method`s with `while` loops. Each is proved equal to one specification
function, `TurnLoop.Run`:

- every response is counted;
- the response that takes the count past the budget of 20 fails the run, before its name is
  read;
- only named responses are recorded;
- the run completes at the first response from the terminating agent whose content contains
  `COMPLETE`.

The plugins replay each turn's calls before the loop body sees the response. The state a
plugin ends in is stated as a function of the calls in the turns that were pulled from the
stream.

## Behaviour worth knowing

- **Selector output.** `result_parser` passes any non-empty selector output through without
  checking that an agent of that name exists (agents/agent_chat.py:69,
  agents/validation_chat.py:75). `AgentChat.ResultParserInChat` and
  `ValidationChat.ResultParserInChat` state when the parser's answer names an agent of the
  chat: exactly when the output is empty or already names one.
- **Purpose check.** `DocumentContext` refuses a purpose (`zweck`) that is whitespace only,
  as well as an empty one (models/core.py:69).
- **Saving people.** `save_people_data` replaces the stored list; it does not append to it
  (plugins/report_plugin.py:50). It checks only that `type` is present, not what its value
  is.
- **The utils prompt.** The requestor line of the prompt in `utils/address_verification.py`
  names the last name twice, with a trailing space ("First Last Last ",
  utils/address_verification.py:42). `AddressWorkflow.RequestorLine` keeps it as written.

## Model

| member | source | states |
|---|---|---|
| Core.NewPerson | models/core.py:28-35 | A constructed person has first and last name trimmed, address and city trimmed when truthy and kept otherwise (`StripPresent`), and the type given |
| Core.StripPresent | models/core.py:32-35 | An optional field is trimmed only when truthy; None stays None and an empty string stays empty |
| Core.NewPersonIdempotent | models/core.py:28-35 | Constructing a person again from a constructed person's fields changes nothing |
| Core.FullNameSplit | models/core.py:37-40 | For a first name without a space, the full name splits at its first space back into first and last name, case kept |
| Core.FullAddress | models/core.py:42-52 | The full address is None exactly when the address is missing or empty, whatever the city |
| Core.FullAddressParts | models/core.py:42-52 | Without a truthy city the full address is the address itself; with one it splits at its first comma into the address and ", city" |
| Core.NewDocumentContext | models/core.py:64-76 | A context is built exactly when the municipality and purpose are not blank and the requestor has type REQUESTOR; otherwise the ValueError is the municipality's, then the purpose's, then the type's; a built context stores both strings trimmed and non-empty |
| Core.GetAddressesDict | models/core.py:78-96 | The loop yields the dictionary of the assignments for the requestor and then each requested person with a full address, in that order |
| Core.AddressEntriesKeys | models/core.py:85-96 | A name is assigned exactly when some person with a full address has it |
| Core.AddressesDictKeys | models/core.py:85-96 | The map's keys are exactly the names of people with a full address, each once, with the requestor's name first when the requestor has an address |
| Core.AddressesDictGet | models/core.py:92-94 | A name maps to the full address of the last person with that name and an address: later people overwrite earlier ones |
| OrderedDict.PutKeys | plugins/report_plugin.py:89 | Assigning to a dictionary key keeps the key order and appends a key it has not seen |
| OrderedDict.PutGet | plugins/report_plugin.py:89 | After `d[k] = v`, `k` reads `v` and every other key reads what it read before |
| OrderedDict.PutAllKeys | plugins/report_plugin.py:76-91 | A dictionary filled by assignments has the assigned keys in first-seen order, each once |
| OrderedDict.PutAllGet | plugins/report_plugin.py:76-91 | In a dictionary filled by assignments a key reads the value of its last assignment |
| OrderedDict.Get | plugins/compliance_plugin.py:96 | A lookup finds nothing exactly when the key is absent, and otherwise returns a value stored under that key |
| Json.Missing | plugins/compliance_plugin.py:52 | The missing-field list holds exactly the required fields the record lacks, in their listed order; it is empty exactly when all are present |
| Json.MissingConcat | plugins/compliance_plugin.py:52 | The missing fields of a list are those of its first part followed by those of the rest: they come in the listed order |
| Report.FirstIncomplete | plugins/report_plugin.py:43-47 | The validation loop stops at the first record lacking a required field: every record before it is complete; there is none exactly when all are complete |
| Report.SavePeople | plugins/report_plugin.py:38-55 | Unparsable input leaves the state and reports the parse error; a batch with an incomplete record leaves the state and names the first such record's missing fields; a complete batch replaces the list, sets the flag and reports its length |
| Report.ApplyAllConcat | plugins/report_plugin.py:29-66 | Making calls `a` and then `b` is making the calls `a + b` |
| Report.ApplyAllFresh | plugins/report_plugin.py:15-66 | After any calls on a fresh plugin, the list is exactly the last accepted batch (or empty), and the flag is set exactly when some call was an accepted save or `mark_complete` |
| Report.ApplyAllComplete | plugins/report_plugin.py:43-52 | Every record a plugin that started fresh holds carries firstname, lastname and type |
| Report.AddressOf | plugins/report_plugin.py:82-87 | A person's address is "address, city" when both are truthy, the address when only it is, and None otherwise |
| Report.AddressMapFacts | plugins/report_plugin.py:76-91 | The address map has each stored name once, in first-seen order; a name maps to the address of the last person with that name |
| Report.RequestedPeople | plugins/report_plugin.py:112 | The requested people are exactly the stored people whose type is "requested" |
| Report.RequestedPeopleConcat | plugins/report_plugin.py:112 | The filter keeps relative order: it distributes over concatenation |
| Report.ReportPlugin.constructor | plugins/report_plugin.py:15-18 | A new plugin holds no people and is not complete |
| Report.ReportPlugin.Reset | plugins/report_plugin.py:20-23 | After a reset the plugin is in the state of a new one |
| Report.ReportPlugin.SavePeopleData | plugins/report_plugin.py:29-57 | The method's new state and message are those `Report.SavePeople` describes; every stored record stays complete |
| Report.ReportPlugin.MarkCompleteCall | plugins/report_plugin.py:63-66 | Sets the flag, leaves the people and returns the fixed message |
| Report.ReportPlugin.Perform | plugins/report_plugin.py:29-66 | One agent call has the effect of that call on the plugin's state |
| Report.ReportPlugin.PerformAll | plugins/report_plugin.py:29-66 | A sequence of agent calls has the effect of those calls in order |
| Report.ReportPlugin.GetAddressesDict | plugins/report_plugin.py:68-91 | The loop yields the dictionary of the (name, address) assignments for the stored people, in order |
| Report.ReportPlugin.GetRequestor | plugins/report_plugin.py:93-103 | The result is the first stored person of type "requestor", and None exactly when there is none |
| Compliance.WithDetails | plugins/compliance_plugin.py:60-61 | A stored record always has `details`; the record's fields are kept and the only field added is `details` as None |
| Compliance.MissingIff | plugins/compliance_plugin.py:50-53 | The missing-field list is empty exactly when section, item and status are present, and names only required fields the record lacks |
| Compliance.SaveResult | plugins/compliance_plugin.py:38-68 | Parse errors, missing fields (checked first) and a status outside passed/failed each leave the state unchanged with their message; an acceptable record is appended as one item at the end; the flag never changes |
| Compliance.ApplyAllConcat | plugins/compliance_plugin.py:29-77 | Making calls `a` and then `b` is making the calls `a + b` |
| Compliance.ApplyAllFresh | plugins/compliance_plugin.py:15-77 | After any calls on a fresh plugin, the items are exactly the accepted records in call order, duplicates kept; the flag is set exactly when `mark_validation_complete` was called |
| Compliance.AcceptedRecordsStored | plugins/compliance_plugin.py:50-65 | Every accepted record has section, item, a passed/failed status and details |
| Compliance.SummaryFacts | plugins/compliance_plugin.py:87-99 | The summary's keys are the distinct sections in first-seen order; each maps to its items in insertion order; together the lists hold as many items as the list |
| Compliance.ReportHasEveryItem | plugins/compliance_plugin.py:113-119 | Every stored item appears in the report with its checkbox line |
| Compliance.ReportStartsWithFirstSection | plugins/compliance_plugin.py:110-114 | A non-empty report starts with the heading of the first item's section |
| Compliance.FormatSection | plugins/compliance_plugin.py:114-119 | One section's lines: its heading, then each item's checkbox line followed by its details line when details is truthy |
| Compliance.CompliancePlugin.constructor | plugins/compliance_plugin.py:15-18 | A new plugin holds no items and is not complete |
| Compliance.CompliancePlugin.Reset | plugins/compliance_plugin.py:20-23 | After a reset the plugin is in the state of a new one |
| Compliance.CompliancePlugin.SaveValidationResultCall | plugins/compliance_plugin.py:29-68 | The method's new state and message are those `Compliance.SaveResult` describes; every stored item stays well formed |
| Compliance.CompliancePlugin.MarkValidationCompleteCall | plugins/compliance_plugin.py:74-77 | Sets the flag, leaves the items and returns the fixed message |
| Compliance.CompliancePlugin.Perform | plugins/compliance_plugin.py:29-77 | One agent call has the effect of that call on the plugin's state |
| Compliance.CompliancePlugin.PerformAll | plugins/compliance_plugin.py:29-77 | A sequence of agent calls has the effect of those calls in order |
| Compliance.CompliancePlugin.GetValidationSummary | plugins/compliance_plugin.py:87-99 | The loop yields the items grouped by section, with the properties of `Compliance.SummaryFacts` |
| Compliance.CompliancePlugin.FormatMarkdownReport | plugins/compliance_plugin.py:101-121 | The empty list gives the fixed German note; otherwise the report is the sections' lines joined by line breaks |
| Telsearch.FormatNameComma | plugins/telsearch_plugin.py:187-192 | "Last, First" becomes "First Last", both trimmed, split at the first comma |
| Telsearch.FormatNameWords | plugins/telsearch_plugin.py:195-200 | A comma-free name of two or more words becomes those words, in order, single-spaced and without outer whitespace |
| Telsearch.FormatNameSingle | plugins/telsearch_plugin.py:201-202 | A comma-free name of fewer than two words is returned unchanged |
| Telsearch.AddressParts | plugins/telsearch_plugin.py:224-228 | There are no address pieces exactly when street, zip and city are all absent |
| Telsearch.RenderAddress | plugins/telsearch_plugin.py:204-233 | No info gives None; street, zip and city together give "street streetno, zip city" trimmed; otherwise a partial value verbatim; otherwise the pieces joined by ", " and trimmed, or None without pieces |
| Telsearch.FormatAddress | plugins/telsearch_plugin.py:175-233 | The formatted name does not depend on the address info; the address is the one `Telsearch.RenderAddress` states, branch by branch |
| Telsearch.CompleteAddressSplit | plugins/telsearch_plugin.py:209-217 | With a trimmed, non-empty street and city the complete address needs no trimming, and splits at its first comma back into "street streetno" and " zip city" |
| Telsearch.IncompleteAddress | plugins/telsearch_plugin.py:224-233 | Without a complete set or a partial value: the street piece, the zip-city piece, or both joined by ", ", trimmed; None when neither exists |
| Telsearch.FormatAddressNoneIff | plugins/telsearch_plugin.py:204-233 | No address comes out exactly when there is no info, or it has none of street, zip, city and partial |
| TurnLoop.FirstStop | services/address_verification_service.py:78-94 | The loop leaves at the first turn that raises, passes the budget or completes; no turn before it does; it never runs past the budget |
| TurnLoop.RecordedLength | services/address_verification_service.py:85-90 | At most one message is recorded per turn, each an assistant message with a non-empty name |
| TurnLoop.CompletedBound | services/address_verification_service.py:78-94 | A completed run pulled at most the budget of turns, recorded at most that many messages, and ended on a completing answer |
| TurnLoop.CompletedIff | services/address_verification_service.py:78-94 | The run completes at turn k exactly when k is within budget, turn k completes, and every earlier turn answered without completing |
| TurnLoop.OverBudgetIff | services/address_verification_service.py:79-83 | The run exceeds the budget exactly when a 21st answer arrives after 20 quiet ones, even if that answer would have completed |
| TurnLoop.ExhaustedIff | services/address_verification_service.py:103-104 | The stream runs dry exactly when it is within budget and nothing in it raises or completes |
| TurnLoop.RunExtend | services/address_verification_service.py:92-94 | No turn after the stopping one is looked at: appending turns to an ended stream changes nothing |
| TurnLoop.RunSameEvents | services/address_verification_service.py:77-94 | The outcome depends only on how turns end, not on the plugin calls made in them |
| TurnLoop.ParseSelection | agents/agent_chat.py:69 | A non-empty selector output is returned as it is; None or empty gives the fallback |
| TurnLoop.GroupChat.AddChatMessage | services/address_verification_service.py:68-71 | The chat history gains exactly the message, at the end |
| AgentChat.SetupAgentChat | agents/agent_chat.py:61-71 | The chat's agents are [Retriever_Agent, Report_Agent] and the first of them speaks first |
| AgentChat.ResultParser | agents/agent_chat.py:69 | The result is never empty: a non-empty output as it is, otherwise Retriever_Agent |
| AgentChat.ResultParserInChat | agents/agent_chat.py:69 | The parsed result names an agent of the chat exactly when the output is empty or already names one; any other output is passed on |
| ValidationChat.SetupValidationChat | agents/validation_chat.py:67-77 | The chat's agents are [Validator_Agent, ComplianceReporter_Agent] and the first of them speaks first |
| ValidationChat.ResultParser | agents/validation_chat.py:75 | The result is never empty: a non-empty output as it is, otherwise Validator_Agent |
| ValidationChat.ResultParserInChat | agents/validation_chat.py:75 | The parsed result names an agent of the chat exactly when the output is empty or already names one; any other output is passed on |
| AddressService.ChatOverBudget | services/address_verification_service.py:77-98 | Under any budget, a response after a budget's worth of quiet ones fails the chat with "Address verification failed: " and the budget message |
| AddressService.VerifyOverBudget | services/address_verification_service.py:77-98 | A 21st response after 20 that neither raised nor completed fails the verification with RuntimeError "Address verification failed: Verification exceeded 20 messages without completion", whatever it says |
| AddressService.Names | services/address_verification_service.py:127-128 | One "firstname lastname" per requested person, in list order |
| AddressService.PromptListsRequested | services/address_verification_service.py:119-143 | Between header and requestor block, the prompt holds one line per requested person, in list order |
| AddressService.CreateVerificationPrompt | services/address_verification_service.py:119-144 | The loop builds the prompt that `AddressService.PromptListsRequested` describes |
| AddressService.SummaryOneLinePerEntry | services/address_verification_service.py:109-115 | The summary of a non-empty map splits back into one "- name: status" line per entry, in map order; a falsy address prints NOT FOUND |
| AddressService.CreateSummary | services/address_verification_service.py:109-115 | The loop builds that summary, or "No addresses found." for an empty map |
| AddressService.ChatFailuresAreRuntime | services/address_verification_service.py:96-104 | Every failure of the chat itself is a RuntimeError |
| AddressService.VerifySucceeded | services/address_verification_service.py:76-117 | A success took at most 20 responses and ended on Report_Agent's answer containing COMPLETE; it returns the address map of the calls made up to then, each name once, and its summary |
| AddressService.VerifyIgnoresLaterTurns | services/address_verification_service.py:92-94 | Once the chat has ended, later turns of the stream do not change the result |
| AddressService.ReplayCalls | services/address_verification_service.py:78 | The plugin takes one turn's calls after those of the turns before |
| AddressService.DriveChat | services/address_verification_service.py:76-94 | The loop's outcome is `TurnLoop.Run`'s; the plugin ends in the state the calls of the pulled turns leave it in |
| AddressService.Conclude | services/address_verification_service.py:96-117 | Loop failures are wrapped as "Address verification failed: …", a dry stream gives the incomplete error, and a success reads the map and summary from the plugin |
| AddressService.AddressVerificationService.constructor | services/address_verification_service.py:23-36 | A new service has a fresh report plugin and an empty chat |
| AddressService.AddressVerificationService.Reset | services/address_verification_service.py:38-40 | A reset puts the report plugin back in its fresh state |
| AddressService.AddressVerificationService.VerifyAddresses | services/address_verification_service.py:42-117 | The plugin is reset first; a blank municipality is a ValueError with the chat untouched; otherwise the prompt is added to the chat and the result and final plugin state are those of the loop |
| AddressWorkflow.PromptLines | utils/address_verification.py:35-54 | The prompt's lines are the intro, the people text verbatim, an empty line, the heading, the requestor line "First Last Last " and the instructions |
| AddressWorkflow.WorkflowAgreesWithService | utils/address_verification.py:85-143 | Past its input checks, the workflow returns what the service returns for the same municipality |
| AddressWorkflow.WorkflowInputErrors | utils/address_verification.py:85-91 | The result is a ValueError exactly when the municipality or the people text is blank, and the municipality is checked first |
| AddressWorkflow.WorkflowSucceeded | utils/address_verification.py:102-143 | A success took at most 20 responses, ended on the report agent's COMPLETE and returns the calls' address map with its summary |
| AddressWorkflow.VerifyAddresses | utils/address_verification.py:56-143 | The plugin is reset first; blank inputs are refused before the chat is touched; otherwise the prompt is added and the loop's result and plugin state follow |
| DocumentSvc.AddressOr | services/document_service.py:75 | A person's address in the prompt is the full address when truthy, the fallback otherwise |
| DocumentSvc.GenerationPromptEntries | services/document_service.py:73-76 | The requested-people block splits into one "   - name: address" entry per person, in order |
| DocumentSvc.ValidateSucceeded | services/document_service.py:149-183 | A success ended within 20 responses on ComplianceReporter_Agent's COMPLETE; its results are exactly the accepted saves in order, each stored in full, and its report renders them |
| DocumentSvc.ValidateIgnoresCompletionFlag | services/document_service.py:158-183 | Taking every `mark_validation_complete` call out of the stream leaves the result unchanged |
| DocumentSvc.DocumentService.constructor | services/document_service.py:22-41 | A new service holds the two templates, a fresh compliance plugin and an empty chat |
| DocumentSvc.DocumentService.CreateGenerationPrompt | services/document_service.py:63-90 | The loop builds the generation prompt whose entries `DocumentSvc.GenerationPromptEntries` describes |
| DocumentSvc.DocumentService.GenerateDocument | services/document_service.py:51-103 | The document is the model's answer, trimmed |
| DocumentSvc.DocumentService.ReplayCalls | services/document_service.py:151 | The plugin takes one turn's calls after those of the turns before |
| DocumentSvc.DocumentService.DriveChat | services/document_service.py:149-167 | The loop's outcome is `TurnLoop.Run`'s under the validation budget and terminator; the plugin ends in the state of the pulled turns' calls |
| DocumentSvc.DocumentService.ValidateDocument | services/document_service.py:105-183 | The plugin is reset, the seed prompt added; failures are "Validation failed: …" or the incomplete error; a success returns the plugin's report and items with the messages |
| DocumentGenerator.RequestorAddress | utils/document_generator.py:39-46 | The requestor's address is their map value when present and non-empty, otherwise "[ADRESSE NICHT VERFÜGBAR]" |
| DocumentGenerator.Others | utils/document_generator.py:49-53 | The listed entries are map entries whose key is not the requestor's name |
| DocumentGenerator.PeopleEntriesOthers | utils/document_generator.py:49-58 | There is one entry per other person, in map order, "name (addr)" or "name (NICHT GEFUNDEN)" |
| DocumentGenerator.OthersOfDict | utils/document_generator.py:49-53 | In a dictionary the others are the whole map, or the map with just the requestor's entry removed |
| DocumentGenerator.PeopleListLines | utils/document_generator.py:64 | A non-empty people list splits back into its entries |
| DocumentGenerator.Unfenced | utils/document_generator.py:122 | The kept lines hold no code fence |
| DocumentGenerator.UnfencedClean | utils/document_generator.py:122 | Lines without a code fence are all kept |
| DocumentGenerator.StripFencesClean | utils/document_generator.py:122-124 | No code fence survives the clean-up |
| DocumentGenerator.StripFencesPlain | utils/document_generator.py:122-124 | An answer without fences whose only line break is `\n` is just trimmed |
| DocumentGenerator.GenerateDocumentWithLlm | utils/document_generator.py:39-124 | The loop with `continue` yields the requestor name, address and people list described above, and the answer is cleaned as described |
| Export.MatchPositions | services/export_service.py:49-50 | Each replaced position holds a bold date, and the matches do not overlap |
| Export.SubstituteGaps | services/export_service.py:50 | The result is the text between the matches, joined by the replacement |
| Export.GapsAreSlices | services/export_service.py:50 | Each piece is exactly the original text between the match before it (or the start) and the match after it (or the end) |
| Export.GapsCount | services/export_service.py:50 | There is one more piece than there are matches |
| Export.GapsHoldNoDate | services/export_service.py:50 | No piece between replacements holds a bold date: the scan misses none |
| Export.SubstituteNoDate | services/export_service.py:50 | A text without a bold date is unchanged and has no match |
| Export.SubstituteDate | services/export_service.py:46-50 | Without a date, or with an empty one, the text is unchanged |
| Export.SubstituteDateReplaces | services/export_service.py:46-50 | With a date, each bold date becomes "**date**", one per match; the text between matches is kept as it was, and none of it holds a bold date |
| Export.SubstituteDateNoMatch | services/export_service.py:46-50 | A text without a bold date is unchanged even when a date is given |
| App.DefaultRequestorOneComma | app.py:144-149 | "Last,First" with one comma gives the trimmed first and last names |
| App.DefaultRequestorOtherwise | app.py:144-149 | Without exactly one comma both defaults stay empty |
| App.RequestorNames | app.py:298-301 | Without a comma in the first-name field both fields are used as they are |
| App.RequestorNamesResplit | app.py:300-301 | A comma in the first-name field gives (first, last) re-split at the first comma, trimmed |
| App.ParseLine | app.py:268-286 | A parsed person is requested and has no address or city; a refused line gives "Invalid format for person: line" |
| App.ParseLineErrIff | app.py:270-276 | A line is refused exactly when it has no comma and fewer than two words |
| App.ParseLineComma | app.py:270-271 | "Last, First" gives those names, trimmed, split at the first comma |
| App.ParseLineWords | app.py:273-278 | A comma-free line gives the first word as first name and the rest, single-spaced, as last name |
| App.NonBlankTrimmed | app.py:263-266 | The kept lines are trimmed and non-empty |
| App.ParseLinesOk | app.py:263-287 | Parsing succeeds exactly when every non-blank line parses; the people are those lines' results, one each, in line order |
| App.FirstBad | app.py:285-286 | The first refused non-blank line: all before it parse |
| App.ParseLinesError | app.py:285-286 | A failed parse reports the error of the first non-blank line that does not parse |
| App.ParseLinesPrefixError | app.py:285-286 | Once a prefix has failed, the whole list fails the same way |
| App.PeopleListRequested | app.py:280-284 | Every parsed person has type REQUESTED and no address |
| App.PeopleListError | app.py:274-286 | A refused list names its first non-blank line with no comma and fewer than two words |
| App.ParsePeopleList | app.py:259-287 | The loop returns what the parse specification describes, stopping at the first refused line |
| App.ToChatEntries | app.py:324-331 | Assistant messages become (None, "name: content"), user messages (content, None), other roles are dropped, in order |
| App.ChatEntriesOfAssistants | app.py:326-328 | Messages that are all from assistants give one assistant row each, in order |
| App.ChatEntriesOfRecorded | app.py:324-331 | A loop's recorded messages give one assistant row per named answer |
| App.CompletedRows | app.py:321-333 | A completed loop shows at most its budget of rows, all on the assistant's side |
| App.ChatShownRows | app.py:321-336 | A chat verification shows at most its budget of rows, all on the assistant's side |
| App.VerifyShownRows | app.py:321-336 | A verification shows at most 20 rows, all on the assistant's side |
| App.VerifyHandlerRows | app.py:296-336 | Whatever the input, the address handler shows at most 20 rows, all on the assistant's side |
| App.VerifyAddressesHandler | app.py:289-336 | The handler shows the summary and rows of the verification, or "⚠️ Error: " and the message with no rows when parsing, the context or the verification fails |
| App.ValidateDocumentHandler | app.py:406-422 | The handler shows the report and rows of the validation, or "⚠️ Validation error: " and the message with no rows |

## Left out

- `async`/`await`: the loops are sequential code over a finite stream of turns.
- The language models, the HTTP directory lookup and the Semantic Kernel library
  (`AgentGroupChat.invoke`, the selection strategy, the agents): the stream of turns, the
  model's answer and the selector's output are parameters.
- The remaining parts of the directory-lookup plugin: `search_person`, an HTTP call, and
  `parse_address`, which uses regular expressions and produces debugging output only.
- `json.loads`: plugin inputs are already-parsed values or a decode error.
  JSON floats, and lists or objects as field values, are not modelled.
  A non-list JSON value passed to `save_people_data` is not modelled either.
- Report.SavePeople: the catch-all `except Exception` branch (plugins/report_plugin.py:56-57)
  is not modelled; with parsed records of scalar values it cannot be reached.
- Compliance.SaveResult: the `isinstance` check on the argument (plugins/compliance_plugin.py:40-41)
  and the catch-all `except` (66-68) are not modelled. The argument is always a string here.
- Python dictionaries treat `True` and `1` as the same key. The model keeps booleans and
  integers distinct.
- `\d` in the date pattern matches every Unicode decimal digit. The model uses ASCII digits.
- `re.sub` processes backslash escapes in the replacement text. The model inserts the date
  literally.
- The generation prompt of `utils/document_generator.py` (67-93), the current date it writes
  (61), and template loading are not modelled. Only the facts the prompt is filled with are.
- DocumentGenerator.GenerateDocumentWithLlm: the address map holds strings, and a None value
  is represented by the empty string. The two behave alike, because only the value's
  truthiness is used.
- The Word export's temporary files, pandoc call, timestamps and output path
  (services/export_service.py:52-78). Only the date substitution is modelled.
- The system error entry that the loops append to their message list before re-raising.
  The list is discarded with the exception, so it is not modelled.
- Chat-history persistence inside the library. The chat is modelled only as the history the
  services append their seed message to.
- The front end's `generate_document` and `export_document` handlers (app.py:338-404,
  424-442), and the Gradio interface itself.
- Environment and configuration: reading `ORDER_PERSON` is a parameter of
  `App.DefaultRequestor`.
- Telsearch.FormatName: the `len(parts) == 2` else-branch after a comma split
  (plugins/telsearch_plugin.py:193-194) is not modelled; it cannot be reached.
- AddressWorkflow.PromptLines states the split of the requestor heading and instructions as
  `SplitOn` of those fixed texts, rather than listing their lines.
- Debug `print`s.
