/**
 * The deterministic half of the template-driven document generator: the facts it puts
 * into the prompt (the requestor's name and address, the list of the other people with
 * their addresses) and the clean-up of the language model's answer.
 */
module DocumentGenerator {
  import opened Wrappers
  import opened Strings
  import opened OrderedDict

  const ADDRESS_UNAVAILABLE: string := "[ADRESSE NICHT VERFÜGBAR]"
  const NOT_FOUND: string := "NICHT GEFUNDEN"
  const NO_PEOPLE: string := "Keine Personen gefunden"
  const FENCE: string := "```"

  /** The facts the generation prompt is filled with. */
  datatype PromptFacts = PromptFacts(requestorName: string, requestorAddress: string, peopleList: string)

  /** The requestor's key in the address map: "firstname lastname". */
  function RequestorName(firstname: string, lastname: string): string {
    firstname + " " + lastname
  }

  /** The requestor's address: the map's value when it has a non-empty one, else the placeholder. */
  function RequestorAddress(addresses: ODict<string, string>, name: string): (r: string)
    ensures r != []
    ensures Get(addresses, name).Some? && Get(addresses, name).value != [] ==> r == Get(addresses, name).value
    ensures Get(addresses, name).None? || Get(addresses, name).value == [] ==> r == ADDRESS_UNAVAILABLE
  {
    match Get(addresses, name)
    case Some(a) => if a != [] then a else ADDRESS_UNAVAILABLE
    case None => ADDRESS_UNAVAILABLE
  }

  /** The map's entries other than the requestor's, in map order. */
  function Others(addresses: ODict<string, string>, requestor: string): (r: ODict<string, string>)
    ensures |r| <= |addresses|
    ensures forall k | 0 <= k < |r| :: r[k].0 != requestor
  {
    if addresses == [] then []
    else
      var e := addresses[|addresses| - 1];
      Others(addresses[..|addresses| - 1], requestor) + if e.0 == requestor then [] else [e]
  }

  /** One line of the people list: "name (address)", or "name (NICHT GEFUNDEN)" without an address. */
  function EntryText(name: string, address: string): string {
    name + " (" + (if address != [] then address else NOT_FOUND) + ")"
  }

  /** The lines of the people list, built as the generator's loop builds them. */
  function PeopleEntries(addresses: ODict<string, string>, requestor: string): seq<string> {
    if addresses == [] then []
    else
      var e := addresses[|addresses| - 1];
      PeopleEntries(addresses[..|addresses| - 1], requestor) + if e.0 == requestor then [] else [EntryText(e.0, e.1)]
  }

  /** The people list's lines are the other people's entries, one each, in map order. */
  lemma {:induction false} PeopleEntriesOthers(addresses: ODict<string, string>, requestor: string)
    ensures |PeopleEntries(addresses, requestor)| == |Others(addresses, requestor)|
    ensures forall k | 0 <= k < |Others(addresses, requestor)| ::
      PeopleEntries(addresses, requestor)[k] ==
        EntryText(Others(addresses, requestor)[k].0, Others(addresses, requestor)[k].1)
  {
    if addresses != [] {
      PeopleEntriesOthers(addresses[..|addresses| - 1], requestor);
    }
  }

  lemma {:induction false} OthersConcat(a: ODict<string, string>, b: ODict<string, string>, requestor: string)
    ensures Others(a + b, requestor) == Others(a, requestor) + Others(b, requestor)
  {
    if b != [] {
      assert (a + b)[..|a + b| - 1] == a + b[..|b| - 1];
      OthersConcat(a, b[..|b| - 1], requestor);
    } else {
      assert a + b == a;
    }
  }

  lemma {:induction false} OthersAbsent(addresses: ODict<string, string>, requestor: string)
    requires forall k | 0 <= k < |addresses| :: addresses[k].0 != requestor
    ensures Others(addresses, requestor) == addresses
  {
    if addresses != [] {
      var init := addresses[..|addresses| - 1];
      OthersAbsent(init, requestor);
      assert init + [addresses[|addresses| - 1]] == addresses;
    }
  }

  /**
   * In a dictionary, whose keys are distinct, the other people are the whole map when the
   * requestor has no entry, and the map with just the requestor's entry removed otherwise.
   */
  lemma OthersOfDict(addresses: ODict<string, string>, requestor: string)
    requires Unique(Keys(addresses))
    ensures requestor !in Keys(addresses) ==> Others(addresses, requestor) == addresses
    ensures forall k | 0 <= k < |addresses| && addresses[k].0 == requestor ::
      Others(addresses, requestor) == addresses[..k] + addresses[k + 1..]
  {
    if requestor !in Keys(addresses) {
      forall k | 0 <= k < |addresses|
        ensures addresses[k].0 != requestor
      {
        assert Keys(addresses)[k] == addresses[k].0;
      }
      OthersAbsent(addresses, requestor);
    }
    forall k | 0 <= k < |addresses| && addresses[k].0 == requestor
      ensures Others(addresses, requestor) == addresses[..k] + addresses[k + 1..]
    {
      forall j | 0 <= j < |addresses| && j != k
        ensures addresses[j].0 != requestor
      {
        assert Keys(addresses)[j] == addresses[j].0 && Keys(addresses)[k] == addresses[k].0;
      }
      OthersWithout(addresses, requestor, k);
    }
  }

  lemma {:induction false} OthersWithout(addresses: ODict<string, string>, requestor: string, k: nat)
    requires k < |addresses|
    requires forall j | 0 <= j < |addresses| && j != k :: addresses[j].0 != requestor
    requires addresses[k].0 == requestor
    ensures Others(addresses, requestor) == addresses[..k] + addresses[k + 1..]
  {
    var init := addresses[..|addresses| - 1];
    if k == |addresses| - 1 {
      OthersAbsent(init, requestor);
      assert addresses[k + 1..] == [];
    } else {
      OthersWithout(init, requestor, k);
      assert init[..k] == addresses[..k];
      assert init[k + 1..] + [addresses[|addresses| - 1]] == addresses[k + 1..];
    }
  }

  /** The people list: its lines joined by line breaks, or a fixed note when there are none. */
  function PeopleListText(entries: seq<string>): string {
    if entries == [] then NO_PEOPLE else Join(entries, "\n")
  }

  /** The people list reads back as its lines when none of them holds a line break. */
  lemma PeopleListLines(entries: seq<string>)
    requires entries != []
    requires forall k | 0 <= k < |entries| :: '\n' !in entries[k]
    ensures SplitOn(PeopleListText(entries), '\n') == entries
  {
    SplitOnJoin(entries, '\n');
  }

  /** The facts for the requestor `firstname lastname` and the address map. */
  function Facts(firstname: string, lastname: string, addresses: ODict<string, string>): PromptFacts {
    var name := RequestorName(firstname, lastname);
    PromptFacts(name, RequestorAddress(addresses, name), PeopleListText(PeopleEntries(addresses, name)))
  }

  /** The answer's lines that hold no code fence, in order. */
  function Unfenced(lines: seq<string>): (r: seq<string>)
    ensures |r| <= |lines|
    ensures forall k | 0 <= k < |r| :: !Contains(r[k], FENCE)
  {
    if lines == [] then []
    else
      var l := lines[|lines| - 1];
      Unfenced(lines[..|lines| - 1]) + if Contains(l, FENCE) then [] else [l]
  }

  lemma {:induction false} UnfencedClean(lines: seq<string>)
    requires forall k | 0 <= k < |lines| :: !Contains(lines[k], FENCE)
    ensures Unfenced(lines) == lines
  {
    if lines != [] {
      UnfencedClean(lines[..|lines| - 1]);
    }
  }

  /** The clean-up of the model's answer: every line with a code fence dropped, the rest trimmed. */
  function StripFences(answer: string): string {
    Strip(Join(Unfenced(SplitLines(answer)), "\n"))
  }

  /** No code fence survives the clean-up. */
  lemma StripFencesClean(answer: string)
    ensures !Contains(StripFences(answer), FENCE)
  {
    var kept := Unfenced(SplitLines(answer));
    JoinNotContains(kept, '\n', FENCE);
    StripNotContains(Join(kept, "\n"), FENCE);
  }

  /**
   * An answer without code fences, whose only line break is `\n`, is merely trimmed.
   */
  lemma StripFencesPlain(answer: string)
    requires !Contains(answer, FENCE)
    requires forall k | 0 <= k < |answer| :: IsLineBreak(answer[k]) ==> answer[k] == '\n'
    ensures StripFences(answer) == Strip(answer)
  {
    SplitLinesNotContains(answer, FENCE);
    UnfencedClean(SplitLines(answer));
    JoinSplitLines(answer);
    var joined := Join(SplitLines(answer), "\n");
    if joined + "\n" == answer {
      StripSnocSpace(joined, '\n');
    }
  }

  /**
   * `generate_document_with_llm` around the model call: the facts it writes into the
   * prompt, and the cleaned answer.
   */
  method GenerateDocumentWithLlm(firstname: string, lastname: string, addresses: ODict<string, string>,
                                 answer: string)
    returns (facts: PromptFacts, document: string)
    ensures facts == Facts(firstname, lastname, addresses)
    ensures document == StripFences(answer)
  {
    var requestorName := firstname + " " + lastname;
    var requestorAddress := ADDRESS_UNAVAILABLE;
    var found := Get(addresses, requestorName);
    if found.Some? && found.value != [] {
      requestorAddress := found.value;
    }
    var entries: seq<string> := [];
    for i := 0 to |addresses|
      invariant entries == PeopleEntries(addresses[..i], requestorName)
    {
      assert addresses[..i + 1][..i] == addresses[..i];
      var (name, addr) := addresses[i];
      if name == requestorName {
        continue;
      }
      if addr != [] {
        entries := entries + [name + " (" + addr + ")"];
      } else {
        entries := entries + [name + " (" + NOT_FOUND + ")"];
      }
    }
    assert addresses[..|addresses|] == addresses;
    var peopleList := if entries != [] then Join(entries, "\n") else NO_PEOPLE;
    facts := PromptFacts(requestorName, requestorAddress, peopleList);
    document := StripFences(answer);
  }
}
