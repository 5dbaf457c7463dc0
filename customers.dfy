/**
 * The admin customer list (src/pages/admin/Customers.tsx): the search
 * filter over name and email, and the text shown in the table and the
 * details dialog. Lower-casing is modelled over ASCII letters only.
 */
module Customers {
  import opened Options
  import Seqs

  datatype Address = Address(
    street: Option<string>,
    city: Option<string>,
    state: Option<string>,
    zipCode: Option<string>,
    country: Option<string>)

  datatype UserProfile = UserProfile(
    id: string,
    name: Option<string>,
    email: Option<string>,
    phone: Option<string>,
    address: Option<Address>,
    created_at: string)

  function LowerChar(c: char): char {
    if 'A' <= c <= 'Z' then (c as int + 32) as char else c
  }

  /** `toLowerCase`, ASCII letters only. */
  function Lower(s: string): (r: string)
    ensures |r| == |s|
    ensures forall i :: 0 <= i < |s| ==> r[i] == LowerChar(s[i])
  {
    seq(|s|, i requires 0 <= i < |s| => LowerChar(s[i]))
  }

  /** Lower-casing twice is lower-casing once. */
  lemma LowerIdempotent(s: string)
    ensures Lower(Lower(s)) == Lower(s)
  {
    assert forall i :: 0 <= i < |s| ==> LowerChar(LowerChar(s[i])) == LowerChar(s[i]);
  }

  predicate OccursAt(hay: string, needle: string, i: int) {
    0 <= i && i + |needle| <= |hay| && hay[i..i + |needle|] == needle
  }

  /** `hay.includes(needle)`. */
  function Includes(hay: string, needle: string): (r: bool)
    ensures r <==> exists i :: OccursAt(hay, needle, i)
    decreases |hay|
  {
    if |needle| > |hay| then false
    else if hay[..|needle|] == needle then
      assert OccursAt(hay, needle, 0);
      true
    else
      assert forall i :: 1 <= i && OccursAt(hay, needle, i) ==> OccursAt(hay[1..], needle, i - 1);
      assert forall i :: OccursAt(hay[1..], needle, i) ==> OccursAt(hay, needle, i + 1) by {
        forall i | OccursAt(hay[1..], needle, i)
          ensures OccursAt(hay, needle, i + 1)
        {
          assert hay[1..][i..i + |needle|] == hay[i + 1..i + 1 + |needle|];
        }
      }
      Includes(hay[1..], needle)
  }

  /** `field?.toLowerCase() || ''`. */
  function SearchText(field: Option<string>): string {
    if field.Some? then Lower(field.value) else ""
  }

  /** The search predicate: the query occurs in the lower-cased name or email. */
  predicate MatchesQuery(c: UserProfile, query: string) {
    Includes(SearchText(c.name), Lower(query)) || Includes(SearchText(c.email), Lower(query))
  }

  /** `filteredCustomers`: the customers whose name or email contains the query, in list order. */
  function FilteredCustomers(customers: seq<UserProfile>, query: string): (r: seq<UserProfile>)
    ensures forall c :: c in r <==> c in customers && MatchesQuery(c, query)
  {
    Seqs.Filter(customers, (c: UserProfile) => MatchesQuery(c, query))
  }

  /** The filtered list is an order-preserving subsequence of the customers. */
  lemma FilteredInOrder(customers: seq<UserProfile>, query: string)
    ensures Seqs.IsSubsequence(FilteredCustomers(customers, query), customers)
  {
    Seqs.FilterIsSubsequence(customers, (c: UserProfile) => MatchesQuery(c, query));
  }

  /** An empty query keeps every customer, in order. */
  lemma EmptyQueryKeepsAll(customers: seq<UserProfile>)
    ensures FilteredCustomers(customers, "") == customers
  {
    forall c | c in customers
      ensures MatchesQuery(c, "")
    {
      assert OccursAt(SearchText(c.name), "", 0);
    }
    Seqs.FilterKeepsAll(customers, (c: UserProfile) => MatchesQuery(c, ""));
  }

  /** The search ignores the case of the query. */
  lemma SearchIgnoresQueryCase(c: UserProfile, query: string)
    ensures MatchesQuery(c, query) == MatchesQuery(c, Lower(query))
  {
    LowerIdempotent(query);
  }

  /** A customer without name and email matches only the empty query. */
  lemma NoNameNoEmailMatchesOnlyEmpty(c: UserProfile, query: string)
    requires c.name.None? && c.email.None?
    ensures MatchesQuery(c, query) <==> query == ""
  {
    if query == "" {
      assert OccursAt("", "", 0);
    }
  }

  /** The location cell: "city, state" when both are non-empty, "Not provided" otherwise. */
  function LocationCell(c: UserProfile): (r: string)
    ensures c.address.Some? && Truthy(c.address.value.city) && Truthy(c.address.value.state) ==>
      r == c.address.value.city.value + ", " + c.address.value.state.value
    ensures !(c.address.Some? && Truthy(c.address.value.city) && Truthy(c.address.value.state)) ==>
      r == "Not provided"
  {
    if c.address.Some? && Truthy(c.address.value.city) && Truthy(c.address.value.state)
    then c.address.value.city.value + ", " + c.address.value.state.value
    else "Not provided"
  }

  /** One part of the address line: its text when non-empty, nothing otherwise. */
  function Part(o: Option<string>): seq<string> {
    if Truthy(o) then [o.value] else []
  }

  /** `[...].filter(Boolean)`: the texts of the non-empty parts, in order. */
  function PresentParts(parts: seq<Option<string>>): (r: seq<string>)
    ensures forall s :: s in r ==> s != ""
    ensures forall o :: o in parts && Truthy(o) ==> o.value in r
  {
    if parts == [] then []
    else
      assert forall o :: o in parts ==> o == parts[0] || o in parts[1..];
      Part(parts[0]) + PresentParts(parts[1..])
  }

  /** Position by position, the present parts are the values of the truthy parts, as `filter(Boolean)` keeps them. */
  lemma {:induction false} PresentPartsAreTheTruthyParts(parts: seq<Option<string>>)
    ensures var kept := Seqs.Filter(parts, Truthy);
      && |PresentParts(parts)| == |kept|
      && forall i :: 0 <= i < |kept| ==> Truthy(kept[i]) && PresentParts(parts)[i] == kept[i].value
  {
    if parts != [] {
      var tail := parts[1..];
      PresentPartsAreTheTruthyParts(tail);
      var kept, keptTail := Seqs.Filter(parts, Truthy), Seqs.Filter(tail, Truthy);
      var r, rTail := PresentParts(parts), PresentParts(tail);
      assert r == Part(parts[0]) + rTail;
      if Truthy(parts[0]) {
        assert kept == [parts[0]] + keptTail;
        forall i | 0 <= i < |kept|
          ensures Truthy(kept[i]) && r[i] == kept[i].value
        {
          if i > 0 {
            assert kept[i] == keptTail[i - 1] && r[i] == rTail[i - 1];
          }
        }
      } else {
        assert kept == keptTail;
      }
    }
  }

  lemma PresentPartsOfThree(x: Option<string>, y: Option<string>, z: Option<string>)
    ensures PresentParts([x, y, z]) == Part(x) + Part(y) + Part(z)
  {
    assert [x, y, z][1..] == [y, z];
    assert [y, z][1..] == [z];
    assert [z][1..] == [];
    assert PresentParts([z]) == Part(z);
    assert PresentParts([y, z]) == Part(y) + Part(z);
  }

  /** `join(sep)`. */
  function Join(parts: seq<string>, sep: string): string {
    if parts == [] then ""
    else if |parts| == 1 then parts[0]
    else parts[0] + sep + Join(parts[1..], sep)
  }

  /** The address line of the details dialog: city, state and zip code, each only when non-empty. */
  function AddressLine(a: Address): string {
    Join(PresentParts([a.city, a.state, a.zipCode]), ", ")
  }

  /** The address line is blank exactly when none of its three parts is present. */
  lemma AddressLineBlank(a: Address)
    ensures AddressLine(a) == "" <==> !Truthy(a.city) && !Truthy(a.state) && !Truthy(a.zipCode)
  {
    PresentPartsOfThree(a.city, a.state, a.zipCode);
    var parts := PresentParts([a.city, a.state, a.zipCode]);
    if parts != [] {
      assert parts[0] in parts;
      assert |Join(parts, ", ")| >= |parts[0]|;
    }
  }

  /** Examples of the joining: all parts, an empty state, and only the zip code. */
  lemma AddressLineExamples(city: string, state: string, zip: string)
    requires city != "" && state != "" && zip != ""
    ensures AddressLine(Address(None, Some(city), Some(state), Some(zip), None)) == city + ", " + state + ", " + zip
    ensures AddressLine(Address(None, Some(city), Some(""), Some(zip), None)) == city + ", " + zip
    ensures AddressLine(Address(None, None, None, Some(zip), None)) == zip
  {
    AllPartsJoined(city, state, zip);
    EmptyStateSkipped(city, zip);
    ZipOnly(zip);
  }

  lemma AllPartsJoined(city: string, state: string, zip: string)
    requires city != "" && state != "" && zip != ""
    ensures AddressLine(Address(None, Some(city), Some(state), Some(zip), None)) == city + ", " + state + ", " + zip
  {
    PresentPartsOfThree(Some(city), Some(state), Some(zip));
    assert Part(Some(city)) == [city] && Part(Some(state)) == [state] && Part(Some(zip)) == [zip];
    assert PresentParts([Some(city), Some(state), Some(zip)]) == [city, state, zip];
    assert [city, state, zip][1..] == [state, zip];
    assert [state, zip][1..] == [zip];
    assert Join([state, zip], ", ") == state + ", " + zip;
    assert Join([city, state, zip], ", ") == city + ", " + (state + ", " + zip);
  }

  lemma EmptyStateSkipped(city: string, zip: string)
    requires city != "" && zip != ""
    ensures AddressLine(Address(None, Some(city), Some(""), Some(zip), None)) == city + ", " + zip
  {
    PresentPartsOfThree(Some(city), Some(""), Some(zip));
    assert Part(Some(city)) == [city] && Part(Some("")) == [] && Part(Some(zip)) == [zip];
    assert PresentParts([Some(city), Some(""), Some(zip)]) == [city, zip];
    assert [city, zip][1..] == [zip];
    assert Join([city, zip], ", ") == city + ", " + Join([zip], ", ");
  }

  lemma ZipOnly(zip: string)
    requires zip != ""
    ensures AddressLine(Address(None, None, None, Some(zip), None)) == zip
  {
    PresentPartsOfThree(None, None, Some(zip));
    assert Part(None) == [] && Part(Some(zip)) == [zip];
    assert PresentParts([None, None, Some(zip)]) == [zip];
  }

  /** The table's name, email and phone cells. */
  function NameCell(c: UserProfile): string { OrElse(c.name, "No Name") }
  function EmailCell(c: UserProfile): string { OrElse(c.email, "No Email") }
  function PhoneCell(c: UserProfile): string { OrElse(c.phone, "Not provided") }

  /** The dialog shows a missing email as "Not provided" rather than the table's "No Email". */
  function DialogEmail(c: UserProfile): string { OrElse(c.email, "Not provided") }

  /** No table cell is ever blank, and a non-empty field is shown as it is. */
  lemma CellsNeverBlank(c: UserProfile)
    ensures NameCell(c) != "" && EmailCell(c) != "" && PhoneCell(c) != "" && LocationCell(c) != ""
    ensures Truthy(c.name) ==> NameCell(c) == c.name.value
    ensures Truthy(c.email) ==> EmailCell(c) == c.email.value && DialogEmail(c) == c.email.value
    ensures Truthy(c.phone) ==> PhoneCell(c) == c.phone.value
    ensures !Truthy(c.email) ==> EmailCell(c) == "No Email" && DialogEmail(c) == "Not provided"
  {
  }
}
