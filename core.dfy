/**
 * The domain model: people, the document context, and the constants the chat loops share.
 * Construction runs the dataclasses' `__post_init__`: names are trimmed, and a context
 * whose municipality, purpose or requestor is unacceptable is refused with a ValueError.
 */
module Core {
  import opened Wrappers
  import opened Strings
  import opened OrderedDict

  /** The number of agent responses a chat may take. */
  const MAX_MESSAGE_COUNT: nat := 20
  /** The word an agent puts in its content to say the work is done. */
  const COMPLETION_MARKER: string := "COMPLETE"

  datatype PersonType = Requestor | Requested

  datatype Person = Person(
    firstname: string,
    lastname: string,
    address: Option<string>,
    city: Option<string>,
    ptype: PersonType)

  /** Python's truthiness of an `Optional[str]`: present and not empty. */
  predicate Present(o: Option<string>) {
    o.Some? && o.value != []
  }

  /** `Person(firstname, lastname, address, city, type)`, including its `__post_init__`. */
  function NewPerson(firstname: string, lastname: string, address: Option<string>, city: Option<string>,
                     ptype: PersonType): (p: Person)
    ensures p.firstname == Strip(firstname) && p.lastname == Strip(lastname)
    ensures p.address == StripPresent(address) && p.city == StripPresent(city)
    ensures IsTrimmed(p.firstname) && IsTrimmed(p.lastname)
    ensures p.address.Some? ==> IsTrimmed(p.address.value)
    ensures p.city.Some? ==> IsTrimmed(p.city.value)
    ensures p.ptype == ptype
  {
    Person(Strip(firstname), Strip(lastname), StripPresent(address), StripPresent(city), ptype)
  }

  /** `if x: x = x.strip()` for an optional string. */
  function StripPresent(o: Option<string>): (r: Option<string>)
    ensures r.Some? ==> IsTrimmed(r.value)
    ensures r.None? <==> o.None?
    ensures !Present(o) ==> r == o
    ensures Present(o) ==> r.value == Strip(o.value)
  {
    if Present(o) then Some(Strip(o.value)) else o
  }

  lemma StripPresentIdempotent(o: Option<string>)
    ensures StripPresent(StripPresent(o)) == StripPresent(o)
  {
    var r := StripPresent(o);
    if r.Some? {
      StripTrimmed(r.value);
    }
  }

  /** Constructing a person again from the fields of a constructed person changes nothing. */
  lemma NewPersonIdempotent(firstname: string, lastname: string, address: Option<string>,
                            city: Option<string>, ptype: PersonType)
    ensures var p := NewPerson(firstname, lastname, address, city, ptype);
      NewPerson(p.firstname, p.lastname, p.address, p.city, p.ptype) == p
  {
    var p := NewPerson(firstname, lastname, address, city, ptype);
    StripTrimmed(p.firstname);
    StripTrimmed(p.lastname);
    StripPresentIdempotent(address);
    StripPresentIdempotent(city);
  }

  /** `full_name`. */
  function FullName(p: Person): string {
    p.firstname + " " + p.lastname
  }

  /** A full name splits back at its first space into the first and last name. */
  lemma FullNameSplit(p: Person)
    requires ' ' !in p.firstname
    ensures SplitOnce(FullName(p), ' ') == Some((p.firstname, p.lastname))
    ensures |FullName(p)| == |p.firstname| + 1 + |p.lastname|
  {
    SplitOnceOf(p.firstname, ' ', p.lastname);
  }

  /** `full_address`: the trimmed address, then `", "` and the trimmed city when there is one. */
  function FullAddress(p: Person): (r: Option<string>)
    ensures r.None? <==> !Present(p.address)
  {
    if !Present(p.address) then None
    else if Present(p.city) then Some(Strip(p.address.value) + ", " + Strip(p.city.value))
    else Some(Strip(p.address.value))
  }

  /**
   * For a person with trimmed address and city (as construction leaves them), the full address
   * is the address alone when the city is missing or empty, and otherwise splits at its first
   * comma into the address and the city.
   */
  lemma FullAddressParts(p: Person)
    requires Present(p.address) && IsTrimmed(p.address.value) && ',' !in p.address.value
    requires p.city.Some? ==> IsTrimmed(p.city.value)
    ensures !Present(p.city) ==> FullAddress(p) == p.address
    ensures Present(p.city) ==> SplitOnce(FullAddress(p).value, ',') == Some((p.address.value, " " + p.city.value))
  {
    var a := p.address.value;
    StripTrimmed(a);
    if Present(p.city) {
      var c := p.city.value;
      StripTrimmed(c);
      assert FullAddress(p).value == a + ", " + c;
      assert a + ", " + c == a + [','] + (" " + c);
      SplitOnceOf(a, ',', " " + c);
    }
  }

  datatype DocumentContext = DocumentContext(
    requestor: Person,
    requestedPeople: seq<Person>,
    gemeinde: string,
    zweck: string)

  const GEMEINDE_EMPTY: string := "Municipality (gemeinde) cannot be empty"
  const ZWECK_EMPTY: string := "Purpose (zweck) cannot be empty"
  const REQUESTOR_TYPE: string := "Requestor must have type PersonType.REQUESTOR"

  /** `DocumentContext(...)`, including its `__post_init__`; `Err` carries the ValueError's message. */
  function NewDocumentContext(requestor: Person, requestedPeople: seq<Person>, gemeinde: string,
                              zweck: string): (r: Result<DocumentContext, string>)
    ensures r.Ok? <==> !IsBlank(gemeinde) && !IsBlank(zweck) && requestor.ptype == Requestor
    ensures IsBlank(gemeinde) ==> r == Err(GEMEINDE_EMPTY)
    ensures !IsBlank(gemeinde) && IsBlank(zweck) ==> r == Err(ZWECK_EMPTY)
    ensures !IsBlank(gemeinde) && !IsBlank(zweck) && requestor.ptype != Requestor ==> r == Err(REQUESTOR_TYPE)
    ensures r.Ok? ==> r.value.requestor == requestor && r.value.requestedPeople == requestedPeople
    ensures r.Ok? ==> r.value.gemeinde == Strip(gemeinde) && r.value.gemeinde != [] && IsTrimmed(r.value.gemeinde)
    ensures r.Ok? ==> r.value.zweck == Strip(zweck) && r.value.zweck != [] && IsTrimmed(r.value.zweck)
  {
    if IsBlank(gemeinde) then Err(GEMEINDE_EMPTY)
    else if IsBlank(zweck) then Err(ZWECK_EMPTY)
    else if requestor.ptype != Requestor then Err(REQUESTOR_TYPE)
    else Ok(DocumentContext(requestor, requestedPeople, Strip(gemeinde), Strip(zweck)))
  }

  /** `if person.full_address:` — the person has a full address that is not empty. */
  predicate HasAddress(p: Person) {
    FullAddress(p).Some? && FullAddress(p).value != []
  }

  /** The assignments `get_addresses_dict` makes for `people`, in order. */
  function AddressEntries(people: seq<Person>): (es: seq<(string, string)>)
    ensures |es| <= |people|
  {
    if people == [] then []
    else
      var p := people[|people| - 1];
      AddressEntries(people[..|people| - 1]) + (if HasAddress(p) then [(FullName(p), FullAddress(p).value)] else [])
  }

  /** Everyone in the context: the requestor first, then the requested people in order. */
  function Everyone(ctx: DocumentContext): seq<Person> {
    [ctx.requestor] + ctx.requestedPeople
  }

  /** One more person adds at most one assignment to the address map. */
  lemma AddressEntriesSnoc(before: seq<Person>, p: Person)
    ensures PutAll(AddressEntries(before + [p])) ==
            if HasAddress(p) then Put(PutAll(AddressEntries(before)), FullName(p), FullAddress(p).value)
            else PutAll(AddressEntries(before))
  {
    var es := AddressEntries(before);
    assert (before + [p])[..|before|] == before;
    if HasAddress(p) {
      assert (es + [(FullName(p), FullAddress(p).value)])[..|es|] == es;
    } else {
      assert es + [] == es;
    }
  }

  /** `get_addresses_dict`: name to full address for everyone whose full address is not empty. */
  method GetAddressesDict(ctx: DocumentContext) returns (d: ODict<string, string>)
    ensures d == PutAll(AddressEntries(Everyone(ctx)))
  {
    var req := ctx.requestor;
    ghost var all := Everyone(ctx);
    d := [];
    AddressEntriesSnoc([], req);
    assert all[..1] == [] + [req];
    if HasAddress(req) {
      d := Put(d, FullName(req), FullAddress(req).value);
    }
    var i := 0;
    while i < |ctx.requestedPeople|
      invariant 0 <= i <= |ctx.requestedPeople|
      invariant d == PutAll(AddressEntries(all[..i + 1]))
    {
      var person := ctx.requestedPeople[i];
      assert all[i + 1] == person;
      assert all[..i + 2] == all[..i + 1] + [person];
      AddressEntriesSnoc(all[..i + 1], person);
      if HasAddress(person) {
        d := Put(d, FullName(person), FullAddress(person).value);
      }
      i := i + 1;
    }
    assert all[..i + 1] == all;
  }

  lemma KeysConcat<K, V>(a: ODict<K, V>, b: ODict<K, V>)
    ensures Keys(a + b) == Keys(a) + Keys(b)
  {
  }

  lemma KeysMember<K, V>(a: ODict<K, V>, b: ODict<K, V>, k: K)
    ensures k in Keys(a + b) <==> k in Keys(a) || k in Keys(b)
  {
    KeysConcat(a, b);
  }

  /** Someone in `people` has a full address and the name `k`. */
  predicate SomeoneNamed(people: seq<Person>, k: string) {
    exists i | 0 <= i < |people| :: HasAddress(people[i]) && FullName(people[i]) == k
  }

  lemma SomeoneNamedSnoc(init: seq<Person>, p: Person, k: string)
    ensures SomeoneNamed(init + [p], k) <==> SomeoneNamed(init, k) || (HasAddress(p) && FullName(p) == k)
  {
    var people := init + [p];
    if SomeoneNamed(people, k) {
      var i :| 0 <= i < |people| && HasAddress(people[i]) && FullName(people[i]) == k;
      if i < |init| {
        assert init[i] == people[i];
      }
    }
    if SomeoneNamed(init, k) {
      var i :| 0 <= i < |init| && HasAddress(init[i]) && FullName(init[i]) == k;
      assert people[i] == init[i];
    }
    assert people[|init|] == p;
  }

  /** A name is a key of the addresses exactly when someone with a full address has that name. */
  lemma {:induction false} AddressEntriesKeys(people: seq<Person>, k: string)
    ensures k in Keys(AddressEntries(people)) <==> SomeoneNamed(people, k)
  {
    if people != [] {
      var init, p := people[..|people| - 1], people[|people| - 1];
      AddressEntriesKeys(init, k);
      var tail: seq<(string, string)> := if HasAddress(p) then [(FullName(p), FullAddress(p).value)] else [];
      KeysMember(AddressEntries(init), tail, k);
      if HasAddress(p) {
        assert Keys(tail) == [FullName(p)];
      } else {
        assert Keys(tail) == [];
      }
      assert AddressEntries(people) == AddressEntries(init) + tail;
      assert people == init + [p];
      SomeoneNamedSnoc(init, p, k);
    }
  }

  /**
   * The address map of a context: its keys are exactly the names of the people with a full
   * address, each once; the requestor's name comes first when the requestor has one.
   */
  lemma AddressesDictKeys(ctx: DocumentContext, k: string)
    ensures k in Keys(PutAll(AddressEntries(Everyone(ctx)))) <==> SomeoneNamed(Everyone(ctx), k)
    ensures Unique(Keys(PutAll(AddressEntries(Everyone(ctx)))))
    ensures HasAddress(ctx.requestor) ==>
      |Keys(PutAll(AddressEntries(Everyone(ctx))))| > 0 && Keys(PutAll(AddressEntries(Everyone(ctx))))[0] == FullName(ctx.requestor)
  {
    var es := AddressEntries(Everyone(ctx));
    PutAllKeys(es);
    AddressEntriesKeys(Everyone(ctx), k);
    if HasAddress(ctx.requestor) {
      AddressEntriesHead(Everyone(ctx));
      DedupHead(Keys(es));
    }
  }

  lemma {:induction false} AddressEntriesHead(people: seq<Person>)
    requires people != [] && HasAddress(people[0])
    ensures AddressEntries(people) != [] && AddressEntries(people)[0] == (FullName(people[0]), FullAddress(people[0]).value)
  {
    if |people| > 1 {
      AddressEntriesHead(people[..|people| - 1]);
    }
  }

  /** The last person in the context with a given name and a full address, if any. */
  function LastWithName(people: seq<Person>, k: string): Option<Person> {
    if people == [] then None
    else
      var p := people[|people| - 1];
      if HasAddress(p) && FullName(p) == k then Some(p) else LastWithName(people[..|people| - 1], k)
  }

  /** A name maps to the full address of the last person with that name: later people overwrite earlier ones. */
  lemma {:induction false} AddressesDictGet(people: seq<Person>, k: string)
    ensures Get(PutAll(AddressEntries(people)), k) ==
            match LastWithName(people, k) case None => None case Some(p) => FullAddress(p)
  {
    PutAllGet(AddressEntries(people), k);
    LastValueAddresses(people, k);
  }

  lemma {:induction false} LastValueAddresses(people: seq<Person>, k: string)
    ensures LastValue(AddressEntries(people), k) ==
            match LastWithName(people, k) case None => None case Some(p) => FullAddress(p)
  {
    if people != [] {
      var init, p := people[..|people| - 1], people[|people| - 1];
      LastValueAddresses(init, k);
      if !HasAddress(p) {
        assert AddressEntries(people) == AddressEntries(init);
      }
    }
  }
}
