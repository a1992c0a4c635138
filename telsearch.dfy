/**
 * The formatting half of the directory-lookup plugin: it brings a looked-up name into
 * "firstname lastname" form and renders the address components a lookup found.
 */
module Telsearch {
  import opened Wrappers
  import opened Strings

  /** The address components a lookup produced: street, streetno, zip, city, or partial. */
  type AddressInfo = map<string, string>

  /** `address_info.get(key, '')`. */
  function GetOr(info: AddressInfo, key: string): (r: string)
    ensures key in info ==> r == info[key]
    ensures key !in info ==> r == ""
  {
    if key in info then info[key] else ""
  }

  /**
   * The name part of `format_address`: "Last, First" becomes "First Last", both trimmed; a
   * name without a comma and of two or more words becomes its words joined by single
   * spaces; anything else is kept as it is.
   */
  function FormatName(name: string): string {
    match SplitOnce(name, ',')
    case Some((lastname, firstname)) => Strip(firstname) + " " + Strip(lastname)
    case None =>
      var parts := SplitWs(name);
      if |parts| >= 2 then parts[0] + " " + Join(parts[1..], " ") else name
  }

  /** "Last, First": the text before the first comma is the last name, the rest the first name. */
  lemma FormatNameComma(lastname: string, firstname: string)
    requires ',' !in lastname
    ensures FormatName(lastname + "," + firstname) == Strip(firstname) + " " + Strip(lastname)
  {
    SplitOnceOf(lastname, ',', firstname);
  }

  /**
   * A name without a comma and of at least two words comes out as those words separated by
   * single spaces: the words are kept, in order, and the result has no outer whitespace.
   */
  lemma FormatNameWords(name: string)
    requires ',' !in name && |SplitWs(name)| >= 2
    ensures FormatName(name) == Join(SplitWs(name), " ")
    ensures SplitWs(FormatName(name)) == SplitWs(name)
    ensures IsTrimmed(FormatName(name))
  {
    var ws := SplitWs(name);
    assert SplitOnce(name, ',').None?;
    assert Join(ws, " ") == ws[0] + " " + Join(ws[1..], " ");
    assert FormatName(name) == Join(ws, " ");
    SplitWsJoin(ws);
    JoinWordsTrimmed(ws);
  }

  /** A name without a comma and of fewer than two words is left alone. */
  lemma FormatNameSingle(name: string)
    requires ',' !in name && |SplitWs(name)| < 2
    ensures FormatName(name) == name
  {
  }

  /** The components of a lookup that the plugin can render. */
  predicate HasComplete(info: AddressInfo) {
    "street" in info && "zip" in info && "city" in info
  }

  /** The pieces of an incomplete address: "street streetno" and "zip city", each if any part is there. */
  function AddressParts(info: AddressInfo): (r: seq<string>)
    ensures r == [] <==> "street" !in info && "zip" !in info && "city" !in info
  {
    (if "street" in info then [info["street"] + " " + GetOr(info, "streetno")] else []) +
    (if "zip" in info || "city" in info then [GetOr(info, "zip") + " " + GetOr(info, "city")] else [])
  }

  /** The complete address, "street streetno, zip city", before trimming. */
  function CompleteText(m: AddressInfo): string
    requires HasComplete(m)
  {
    m["street"] + " " + GetOr(m, "streetno") + ", " + m["zip"] + " " + m["city"]
  }

  /**
   * The address half of `format_address`: nothing without a lookup result; the complete
   * address when street, zip and city are all there; otherwise a partial address verbatim;
   * otherwise the pieces there are, joined by ", "; nothing when there are none.
   */
  function RenderAddress(info: Option<AddressInfo>): (r: Option<string>)
    ensures info.None? || info.value == map[] ==> r.None?
    ensures info.Some? && HasComplete(info.value) ==> r == Some(Strip(CompleteText(info.value)))
    ensures info.Some? && !HasComplete(info.value) && "partial" in info.value ==>
      r == Some(info.value["partial"])
    ensures info.Some? && !HasComplete(info.value) && "partial" !in info.value ==>
      r == if AddressParts(info.value) == [] then None else Some(Strip(Join(AddressParts(info.value), ", ")))
    ensures r.Some? && !(info.Some? && "partial" in info.value && !HasComplete(info.value)) ==>
      IsTrimmed(r.value)
  {
    if info.None? || info.value == map[] then None
    else
      var m := info.value;
      if HasComplete(m) then Some(Strip(CompleteText(m)))
      else if "partial" in m then Some(m["partial"])
      else
        var parts := AddressParts(m);
        if parts != [] then Some(Strip(Join(parts, ", "))) else None
  }

  /** `format_address`: the formatted name and the rendered address, if any. */
  function FormatAddress(name: string, info: Option<AddressInfo>): (r: (string, Option<string>))
    ensures r.0 == FormatName(name)
    ensures info.None? || info.value == map[] ==> r.1.None?
    ensures info.Some? && HasComplete(info.value) ==> r.1 == Some(Strip(CompleteText(info.value)))
    ensures info.Some? && !HasComplete(info.value) && "partial" in info.value ==>
      r.1 == Some(info.value["partial"])
    ensures info.Some? && !HasComplete(info.value) && "partial" !in info.value ==>
      r.1 == if AddressParts(info.value) == [] then None else Some(Strip(Join(AddressParts(info.value), ", ")))
  {
    (FormatName(name), RenderAddress(info))
  }

  /**
   * With a trimmed, non-empty street and city, the complete address needs no trimming, and
   * when neither street nor house number holds a comma it splits at its first comma back
   * into "street streetno" and " zip city".
   */
  lemma CompleteAddressSplit(m: AddressInfo)
    requires HasComplete(m)
    requires m["street"] != [] && IsTrimmed(m["street"]) && m["city"] != [] && IsTrimmed(m["city"])
    ensures RenderAddress(Some(m)) == Some(CompleteText(m))
    ensures ',' !in m["street"] && ',' !in GetOr(m, "streetno") ==>
      SplitOnce(RenderAddress(Some(m)).value, ',') ==
        Some((m["street"] + " " + GetOr(m, "streetno"), " " + m["zip"] + " " + m["city"]))
  {
    var street, no, zip, city := m["street"], GetOr(m, "streetno"), m["zip"], m["city"];
    var a := CompleteText(m);
    assert a[0] == street[0];
    assert a[|a| - 1] == city[|city| - 1];
    StripTrimmed(a);
    var head := street + " " + no;
    assert a == head + [','] + (" " + zip + " " + city);
    if ',' !in street && ',' !in no {
      assert ',' !in head;
      SplitOnceOf(head, ',', " " + zip + " " + city);
    }
  }

  /**
   * An incomplete lookup without a partial address: the street piece alone, the zip-city
   * piece alone, or both joined by ", ", trimmed; missing parts read as empty.
   */
  lemma IncompleteAddress(m: AddressInfo)
    requires !HasComplete(m) && "partial" !in m
    ensures var street := GetOr(m, "street") + " " + GetOr(m, "streetno");
      var place := GetOr(m, "zip") + " " + GetOr(m, "city");
      RenderAddress(Some(m)) ==
        if "street" in m && ("zip" in m || "city" in m) then Some(Strip(street + ", " + place))
        else if "street" in m then Some(Strip(street))
        else if "zip" in m || "city" in m then Some(Strip(place))
        else None
  {
    var parts := AddressParts(m);
    if |parts| == 2 {
      assert parts[1..] == [parts[1]];
      assert Join(parts, ", ") == parts[0] + ", " + parts[1];
    }
  }

  /**
   * No address comes out exactly when there was no lookup result, or it held none of
   * street, zip, city and partial.
   */
  lemma FormatAddressNoneIff(name: string, info: Option<AddressInfo>)
    ensures FormatAddress(name, info).1.None? <==>
      info.None? || ("street" !in info.value && "zip" !in info.value && "city" !in info.value && "partial" !in info.value)
  {
    assert FormatAddress(name, info).1 == RenderAddress(info);
    if info.Some? && info.value == map[] {
      assert "street" !in info.value && "zip" !in info.value && "city" !in info.value && "partial" !in info.value;
    }
  }
}
