/**
 * The store the report agent writes verified people into. A save validates the whole batch
 * first and then replaces the stored list with it; a batch with any incomplete record, or
 * input that is not JSON, leaves the store as it was.
 */
module Report {
  import opened Wrappers
  import opened Strings
  import opened Json
  import opened OrderedDict

  /** The fields every stored person record must carry. */
  const REQUIRED: seq<string> := ["firstname", "lastname", "type"]

  /** The argument of `save_people_data` after `json.loads`: a list of objects, or a decode error. */
  datatype PeopleInput = PeopleUnparsable(reason: string) | PeopleBatch(records: seq<Record>)

  /** A call the report agent can make on the plugin. */
  datatype ReportCall = SavePeopleData(input: PeopleInput) | MarkComplete

  /** What the plugin holds: `people` and `is_complete`. */
  datatype ReportState = ReportState(people: seq<Record>, isComplete: bool)

  /** The state of a new plugin, and of one after `reset`. */
  const FRESH: ReportState := ReportState([], false)

  predicate Complete(r: Record) {
    Missing(r, REQUIRED) == []
  }

  predicate AllComplete(rs: seq<Record>) {
    forall i | 0 <= i < |rs| :: Complete(rs[i])
  }

  /** The position of the first record of the batch that lacks a required field. */
  function FirstIncomplete(rs: seq<Record>): (r: Option<nat>)
    ensures r.None? <==> AllComplete(rs)
    ensures r.Some? ==> r.value < |rs| && !Complete(rs[r.value])
    ensures r.Some? ==> forall j | 0 <= j < r.value :: Complete(rs[j])
  {
    if rs == [] then None
    else if !Complete(rs[0]) then Some(0)
    else match FirstIncomplete(rs[1..])
      case None => None
      case Some(i) =>
        assert forall j | 1 <= j <= i :: rs[j] == rs[1..][j - 1];
        Some(i + 1)
  }

  function MissingMessage(r: Record): string {
    "Error: Missing required fields " + FieldList(Missing(r, REQUIRED))
  }

  function ParseErrorMessage(reason: string): string {
    "Error parsing JSON data: " + reason
  }

  function SavedMessage(n: nat): string {
    "Successfully saved data for " + NatToString(n) + " people"
  }

  /**
   * `save_people_data`: the new state and the returned message. A batch whose records all carry
   * the required fields replaces the whole list and marks the store complete; anything else
   * changes nothing and names the problem.
   */
  function SavePeople(st: ReportState, input: PeopleInput): (r: (ReportState, string))
    ensures input.PeopleUnparsable? ==> r == (st, ParseErrorMessage(input.reason))
    ensures input.PeopleBatch? && AllComplete(input.records) ==>
      r == (ReportState(input.records, true), SavedMessage(|input.records|))
    ensures input.PeopleBatch? && !AllComplete(input.records) ==>
      r.0 == st && exists i | 0 <= i < |input.records| ::
        r.1 == MissingMessage(input.records[i]) && !Complete(input.records[i]) &&
        forall j | 0 <= j < i :: Complete(input.records[j])
  {
    match input
    case PeopleUnparsable(reason) => (st, ParseErrorMessage(reason))
    case PeopleBatch(rs) =>
      match FirstIncomplete(rs)
      case Some(i) => (st, MissingMessage(rs[i]))
      case None => (ReportState(rs, true), SavedMessage(|rs|))
  }

  /** The effect of one call on the plugin's state. */
  function Apply(st: ReportState, c: ReportCall): ReportState {
    match c
    case SavePeopleData(input) => SavePeople(st, input).0
    case MarkComplete => ReportState(st.people, true)
  }

  /** The state after the calls `cs`, made in order, starting from `st`. */
  function ApplyAll(st: ReportState, cs: seq<ReportCall>): ReportState {
    if cs == [] then st else Apply(ApplyAll(st, cs[..|cs| - 1]), cs[|cs| - 1])
  }

  /** Making the calls `a` and then the calls `b` is making the calls `a + b`. */
  lemma {:induction false} ApplyAllConcat(st: ReportState, a: seq<ReportCall>, b: seq<ReportCall>)
    ensures ApplyAll(st, a + b) == ApplyAll(ApplyAll(st, a), b)
  {
    if b == [] {
      assert a + b == a;
    } else {
      assert (a + b)[..|a + b| - 1] == a + b[..|b| - 1];
      ApplyAllConcat(st, a, b[..|b| - 1]);
    }
  }

  /** A save that the plugin accepts. */
  predicate AcceptedSave(c: ReportCall) {
    c.SavePeopleData? && c.input.PeopleBatch? && AllComplete(c.input.records)
  }

  /** The batch of the last accepted save among `cs`, if any. */
  function LastBatch(cs: seq<ReportCall>): Option<seq<Record>> {
    if cs == [] then None
    else if AcceptedSave(cs[|cs| - 1]) then Some(cs[|cs| - 1].input.records)
    else LastBatch(cs[..|cs| - 1])
  }

  /**
   * Whatever calls a run makes on a fresh plugin, it ends holding exactly the batch of the last
   * accepted save (nothing if there was none), and it is complete exactly when some call
   * was an accepted save or `mark_complete`.
   */
  lemma {:induction false} ApplyAllFresh(cs: seq<ReportCall>)
    ensures ApplyAll(FRESH, cs).people == match LastBatch(cs) case None => [] case Some(b) => b
    ensures ApplyAll(FRESH, cs).isComplete <==>
            exists i | 0 <= i < |cs| :: AcceptedSave(cs[i]) || cs[i].MarkComplete?
  {
    if cs != [] {
      var init, c := cs[..|cs| - 1], cs[|cs| - 1];
      ApplyAllFresh(init);
      if exists i | 0 <= i < |cs| :: AcceptedSave(cs[i]) || cs[i].MarkComplete? {
        var i :| 0 <= i < |cs| && (AcceptedSave(cs[i]) || cs[i].MarkComplete?);
        if i < |init| {
          assert init[i] == cs[i];
        }
      }
      if exists i | 0 <= i < |init| :: AcceptedSave(init[i]) || init[i].MarkComplete? {
        var i :| 0 <= i < |init| && (AcceptedSave(init[i]) || init[i].MarkComplete?);
        assert cs[i] == init[i];
      }
    }
  }

  /** Every record held by a plugin that started fresh carries the required fields. */
  lemma {:induction false} ApplyAllComplete(cs: seq<ReportCall>)
    ensures AllComplete(ApplyAll(FRESH, cs).people)
  {
    if cs != [] {
      ApplyAllComplete(cs[..|cs| - 1]);
    }
  }

  /** `f"{person['firstname']} {person['lastname']}"`. */
  function NameOf(p: Record): string {
    Str(Lookup(p, "firstname")) + " " + Str(Lookup(p, "lastname"))
  }

  /** The address `get_addresses_dict` assigns to a person. */
  function AddressOf(p: Record): (a: JValue)
    ensures Truthy(Lookup(p, "address")) && Truthy(Lookup(p, "city")) ==>
      a == JStr(Str(Lookup(p, "address")) + ", " + Str(Lookup(p, "city")))
    ensures Truthy(Lookup(p, "address")) && !Truthy(Lookup(p, "city")) ==> a == Lookup(p, "address")
    ensures !Truthy(Lookup(p, "address")) ==> a == JNull
  {
    var address, city := Lookup(p, "address"), Lookup(p, "city");
    if Truthy(address) && Truthy(city) then JStr(Str(address) + ", " + Str(city))
    else if Truthy(address) then address
    else JNull
  }

  /** The assignments `get_addresses_dict` makes, one per person, in order. */
  function AddressPairs(people: seq<Record>): seq<(string, JValue)> {
    seq(|people|, i requires 0 <= i < |people| => (NameOf(people[i]), AddressOf(people[i])))
  }

  /** The last person in `people` with the name `k`, if any. */
  function LastNamed(people: seq<Record>, k: string): Option<Record> {
    if people == [] then None
    else if NameOf(people[|people| - 1]) == k then Some(people[|people| - 1])
    else LastNamed(people[..|people| - 1], k)
  }

  /**
   * The address map has every stored person's name as a key, once, in first-seen order; a
   * name maps to the address of the last person with that name.
   */
  lemma {:induction false} AddressMapFacts(people: seq<Record>, k: string)
    ensures Keys(PutAll(AddressPairs(people))) == Dedup(Keys(AddressPairs(people)))
    ensures Get(PutAll(AddressPairs(people)), k) ==
            match LastNamed(people, k) case None => None case Some(p) => Some(AddressOf(p))
  {
    PutAllKeys(AddressPairs(people));
    PutAllGet(AddressPairs(people), k);
    LastValuePairs(people, k);
  }

  lemma {:induction false} LastValuePairs(people: seq<Record>, k: string)
    ensures LastValue(AddressPairs(people), k) ==
            match LastNamed(people, k) case None => None case Some(p) => Some(AddressOf(p))
  {
    if people != [] {
      var init := people[..|people| - 1];
      assert AddressPairs(people)[..|people| - 1] == AddressPairs(init);
      LastValuePairs(init, k);
    }
  }

  predicate HasType(p: Record, t: string) {
    Lookup(p, "type") == JStr(t)
  }

  /** `[p for p in self.people if p.get('type') == 'requested']`. */
  function RequestedPeople(people: seq<Record>): (r: seq<Record>)
    ensures forall i | 0 <= i < |r| :: HasType(r[i], "requested") && r[i] in people
    ensures forall i | 0 <= i < |people| :: HasType(people[i], "requested") ==> people[i] in r
    ensures |r| <= |people|
  {
    if people == [] then []
    else
      var rest := RequestedPeople(people[1..]);
      assert forall i | 1 <= i < |people| :: people[i] == people[1..][i - 1];
      if HasType(people[0], "requested") then [people[0]] + rest else rest
  }

  /** The requested people keep their relative order: the filter of a concatenation. */
  lemma {:induction false} RequestedPeopleConcat(a: seq<Record>, b: seq<Record>)
    ensures RequestedPeople(a + b) == RequestedPeople(a) + RequestedPeople(b)
  {
    if a != [] {
      assert (a + b)[1..] == a[1..] + b;
      RequestedPeopleConcat(a[1..], b);
    } else {
      assert a + b == b;
    }
  }

  /** The plugin object: its stored list and completion flag change in place. */
  class ReportPlugin {
    var people: seq<Record>
    var isComplete: bool

    /** Every stored record carries the required fields. */
    ghost predicate Valid()
      reads this
    {
      AllComplete(people)
    }

    function State(): ReportState
      reads this
    {
      ReportState(people, isComplete)
    }

    constructor()
      ensures State() == FRESH && Valid()
    {
      people := [];
      isComplete := false;
    }

    method Reset()
      modifies this
      ensures State() == FRESH && Valid()
    {
      people := [];
      isComplete := false;
    }

    /** `save_people_data`: validates each record in order, then stores the whole batch. */
    method SavePeopleData(input: PeopleInput) returns (msg: string)
      requires Valid()
      modifies this
      ensures (State(), msg) == SavePeople(old(State()), input)
      ensures Valid()
    {
      match input
      case PeopleUnparsable(reason) =>
        return ParseErrorMessage(reason);
      case PeopleBatch(data) =>
        var i := 0;
        while i < |data|
          invariant 0 <= i <= |data|
          invariant forall j | 0 <= j < i :: Complete(data[j])
        {
          if Missing(data[i], REQUIRED) != [] {
            assert FirstIncomplete(data) == Some(i) by {
              FirstIncompleteAt(data, i);
            }
            return MissingMessage(data[i]);
          }
          i := i + 1;
        }
        people := data;
        isComplete := true;
        return SavedMessage(|data|);
    }

    /** `mark_complete`. */
    method MarkCompleteCall() returns (msg: string)
      modifies this
      ensures people == old(people) && isComplete
      ensures msg == "Verification process marked as complete"
    {
      isComplete := true;
      msg := "Verification process marked as complete";
    }

    /** Carries out one call the agent makes. */
    method Perform(c: ReportCall)
      requires Valid()
      modifies this
      ensures State() == Apply(old(State()), c) && Valid()
    {
      match c
      case SavePeopleData(input) =>
        var _ := SavePeopleData(input);
      case MarkComplete =>
        var _ := MarkCompleteCall();
    }

    /** Carries out the calls `cs` in order. */
    method PerformAll(cs: seq<ReportCall>)
      requires Valid()
      modifies this
      ensures State() == ApplyAll(old(State()), cs) && Valid()
    {
      var i := 0;
      while i < |cs|
        invariant 0 <= i <= |cs|
        invariant Valid()
        invariant State() == ApplyAll(old(State()), cs[..i])
      {
        assert cs[..i + 1][..i] == cs[..i];
        Perform(cs[i]);
        i := i + 1;
      }
      assert cs[..i] == cs;
    }

    /** `get_addresses_dict`. */
    method GetAddressesDict() returns (d: ODict<string, JValue>)
      requires Valid()
      ensures d == PutAll(AddressPairs(people))
    {
      d := [];
      var i := 0;
      while i < |people|
        invariant 0 <= i <= |people|
        invariant d == PutAll(AddressPairs(people[..i]))
      {
        var person := people[i];
        assert AddressPairs(people[..i + 1])[..i] == AddressPairs(people[..i]);
        d := Put(d, NameOf(person), AddressOf(person));
        i := i + 1;
      }
      assert people[..i] == people;
    }

    /** `get_requestor`: the first person whose type is `"requestor"`. */
    method GetRequestor() returns (r: Option<Record>)
      ensures r.None? <==> forall i | 0 <= i < |people| :: !HasType(people[i], "requestor")
      ensures r.Some? ==> exists i | 0 <= i < |people| ::
        r.value == people[i] && HasType(people[i], "requestor") &&
        forall j | 0 <= j < i :: !HasType(people[j], "requestor")
    {
      var i := 0;
      while i < |people|
        invariant 0 <= i <= |people|
        invariant forall j | 0 <= j < i :: !HasType(people[j], "requestor")
      {
        if HasType(people[i], "requestor") {
          return Some(people[i]);
        }
        i := i + 1;
      }
      return None;
    }

    /** `get_requested_people`. */
    function GetRequestedPeople(): seq<Record>
      reads this
    {
      RequestedPeople(people)
    }
  }

  lemma {:induction false} FirstIncompleteAt(rs: seq<Record>, i: nat)
    requires i < |rs| && !Complete(rs[i])
    requires forall j | 0 <= j < i :: Complete(rs[j])
    ensures FirstIncomplete(rs) == Some(i)
  {
    if i > 0 {
      assert Complete(rs[0]);
      assert forall j | 0 <= j < i - 1 :: rs[1..][j] == rs[j + 1];
      FirstIncompleteAt(rs[1..], i - 1);
    }
  }
}
