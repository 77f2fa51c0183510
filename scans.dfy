/**
 * The loops app.py runs over its stores: resolving a country code, the two
 * name-uniqueness rules, and the foreign-key filters. Each loop is a method
 * proved against a function that states what it finds.
 */
module Scans {
  import opened Wrappers
  import opened Json
  import opened Records
  import opened Dicts

  /** The first country with `code`, as an index into the countries in store order. */
  function FirstCodeIndex(rows: seq<CountryRow>, code: string): (r: Option<nat>)
    ensures r.Some? ==> r.value < |rows| && rows[r.value].code == code
    ensures r.Some? ==> forall j :: 0 <= j < r.value ==> rows[j].code != code
    ensures r.None? <==> forall j :: 0 <= j < |rows| ==> rows[j].code != code
  {
    if rows == [] then None
    else if rows[0].code == code then Some(0)
    else match FirstCodeIndex(rows[1..], code)
      case None => None
      case Some(i) => Some(i + 1)
  }

  /** The last country with `code`: a scan without `break` keeps overwriting its pick. */
  function LastCodeIndex(rows: seq<CountryRow>, code: string): (r: Option<nat>)
    ensures r.Some? ==> r.value < |rows| && rows[r.value].code == code
    ensures r.Some? ==> forall j :: r.value < j < |rows| ==> rows[j].code != code
    ensures r.None? <==> forall j :: 0 <= j < |rows| ==> rows[j].code != code
  {
    if rows == [] then None
    else if rows[|rows| - 1].code == code then Some(|rows| - 1)
    else LastCodeIndex(rows[..|rows| - 1], code)
  }

  /** Both scans find the same country when only one country has the code. */
  lemma {:induction false} FirstIsLastWhenUnique(rows: seq<CountryRow>, code: string, i: nat)
    requires i < |rows| && rows[i].code == code
    requires forall j :: 0 <= j < |rows| && j != i ==> rows[j].code != code
    ensures FirstCodeIndex(rows, code) == LastCodeIndex(rows, code) == Some(i)
  {
    var f, l := FirstCodeIndex(rows, code), LastCodeIndex(rows, code);
    assert f.Some? && l.Some?;
  }

  /** The loop of `cities_post` and `cities_put`: stops at the first match. */
  method FindFirstCode(rows: seq<CountryRow>, code: string) returns (r: Option<nat>)
    ensures r == FirstCodeIndex(rows, code)
  {
    r := None;
    var i := 0;
    while i < |rows|
      invariant 0 <= i <= |rows|
      invariant forall j :: 0 <= j < i ==> rows[j].code != code
    {
      if rows[i].code == code {
        r := Some(i);
        break;
      }
      i := i + 1;
    }
    var expected := FirstCodeIndex(rows, code);
    if r.Some? {
      assert expected.Some? && expected.value == r.value by {
        if expected.value < r.value {} else if expected.value > r.value {}
      }
    }
  }

  /** The loop of `countries_put` and `countries_specific_cities_get`: no `break`, so the last match wins. */
  method FindLastCode(rows: seq<CountryRow>, code: string) returns (r: Option<nat>)
    ensures r == LastCodeIndex(rows, code)
  {
    r := None;
    var i := 0;
    while i < |rows|
      invariant 0 <= i <= |rows|
      invariant r == LastCodeIndex(rows[..i], code)
    {
      assert rows[..i + 1][..i] == rows[..i];
      if rows[i].code == code {
        r := Some(i);
      }
      i := i + 1;
    }
    assert rows[..i] == rows;
  }

  /**
   * A city of `countryId` named exactly `name`, other than the city whose row
   * id is `except` (`cities_put` skips the city being updated).
   */
  predicate CityTaken(rows: seq<CityRow>, countryId: string, name: string, except: Option<string>) {
    exists j :: 0 <= j < |rows| && rows[j].countryId == countryId && rows[j].name == name
      && (except.None? || rows[j].id != except.value)
  }

  method FindCityClash(rows: seq<CityRow>, countryId: string, name: string, except: Option<string>) returns (clash: bool)
    ensures clash == CityTaken(rows, countryId, name, except)
  {
    clash := false;
    var i := 0;
    while i < |rows|
      invariant 0 <= i <= |rows|
      invariant !CityTaken(rows[..i], countryId, name, except)
    {
      var v := rows[i];
      if v.countryId == countryId && v.name == name && (except.None? || v.id != except.value) {
        assert rows[i] == v;
        return true;
      }
      assert forall j :: 0 <= j < i + 1 ==> rows[..i + 1][j] == rows[j];
      i := i + 1;
    }
    assert rows[..i] == rows;
  }

  /** An amenity stored under a key other than `amenityId` whose name is exactly `name`. */
  predicate AmenityTaken(d: Dict<string, AmenityRow>, name: string, amenityId: string) {
    exists k :: k in d.entries && d.entries[k].name == name && k != amenityId
  }

  /** The loop of `update_amenity`, which compares dictionary keys and not row ids. */
  method FindAmenityClash(d: Dict<string, AmenityRow>, name: string, amenityId: string) returns (clash: bool)
    requires d.Valid()
    ensures clash == AmenityTaken(d, name, amenityId)
  {
    var i := 0;
    while i < |d.keys|
      invariant 0 <= i <= |d.keys|
      invariant forall j :: 0 <= j < i ==> d.entries[d.keys[j]].name != name || d.keys[j] == amenityId
    {
      var k := d.keys[i];
      if d.entries[k].name == name && k != amenityId {
        return true;
      }
      i := i + 1;
    }
    clash := false;
    forall k | k in d.entries
      ensures d.entries[k].name != name || k == amenityId
    {
      var j :| 0 <= j < |d.keys| && d.keys[j] == k;
    }
  }

  /** The cities of `countryId`, in store order. */
  function CitiesOf(rows: seq<CityRow>, countryId: string): (r: seq<CityRow>)
    ensures |r| <= |rows|
  {
    if rows == [] then []
    else CitiesOf(rows[..|rows| - 1], countryId) + (if rows[|rows| - 1].countryId == countryId then [rows[|rows| - 1]] else [])
  }

  /** Exactly the cities of that country are listed. */
  lemma {:induction false} CitiesOfMembers(rows: seq<CityRow>, countryId: string)
    ensures forall c :: c in CitiesOf(rows, countryId) <==> c in rows && c.countryId == countryId
  {
    if rows != [] {
      var init := rows[..|rows| - 1];
      CitiesOfMembers(init, countryId);
      assert rows == init + [rows[|rows| - 1]];
    }
  }

  /** Listing keeps store order: the cities of a longer store extend those of its prefix. */
  lemma {:induction false} CitiesOfAppend(a: seq<CityRow>, b: seq<CityRow>, countryId: string)
    ensures CitiesOf(a + b, countryId) == CitiesOf(a, countryId) + CitiesOf(b, countryId)
    decreases |b|
  {
    if b == [] {
      assert a + b == a;
    } else {
      var init := b[..|b| - 1];
      assert (a + b)[..|a + b| - 1] == a + init;
      CitiesOfAppend(a, init, countryId);
    }
  }

  /** The second loop of `countries_specific_cities_get`. */
  method CollectCities(rows: seq<CityRow>, countryId: string) returns (found: seq<CityRow>)
    ensures found == CitiesOf(rows, countryId)
  {
    found := [];
    var i := 0;
    while i < |rows|
      invariant 0 <= i <= |rows|
      invariant found == CitiesOf(rows[..i], countryId)
    {
      assert rows[..i + 1][..i] == rows[..i];
      if rows[i].countryId == countryId {
        found := found + [rows[i]];
      }
      i := i + 1;
    }
    assert rows[..i] == rows;
  }

  /** Which foreign key of a review a filter compares. */
  datatype ReviewKey = ByUser | ByPlace

  function KeyValue(r: ReviewRow, key: ReviewKey): Value {
    match key
    case ByUser => r.commentorUserId
    case ByPlace => r.placeId
  }

  /** The comprehension of `get_reviews_by_user` / `get_reviews_by_place`, over the reviews in store order. */
  function ReviewsWhere(rows: seq<ReviewRow>, key: ReviewKey, id: string): (r: seq<ReviewRow>)
    ensures |r| <= |rows|
  {
    if rows == [] then []
    else (if KeyValue(rows[0], key) == Str(id) then [rows[0]] else []) + ReviewsWhere(rows[1..], key, id)
  }

  /** Exactly the reviews whose key equals the id (as a string) are returned. */
  lemma {:induction false} ReviewsWhereMembers(rows: seq<ReviewRow>, key: ReviewKey, id: string)
    ensures forall r :: r in ReviewsWhere(rows, key, id) <==> r in rows && KeyValue(r, key) == Str(id)
  {
    if rows != [] {
      ReviewsWhereMembers(rows[1..], key, id);
      assert rows == [rows[0]] + rows[1..];
    }
  }

  /** Store order is kept: filtering distributes over concatenation. */
  lemma {:induction false} ReviewsWhereAppend(a: seq<ReviewRow>, b: seq<ReviewRow>, key: ReviewKey, id: string)
    ensures ReviewsWhere(a + b, key, id) == ReviewsWhere(a, key, id) + ReviewsWhere(b, key, id)
  {
    if a == [] {
      assert a + b == b;
    } else {
      var ab := a + b;
      assert ab[0] == a[0] && ab[1..] == a[1..] + b;
      var head := if KeyValue(a[0], key) == Str(id) then [a[0]] else [];
      assert ReviewsWhere(ab, key, id) == head + ReviewsWhere(a[1..] + b, key, id);
      assert ReviewsWhere(a, key, id) == head + ReviewsWhere(a[1..], key, id);
      ReviewsWhereAppend(a[1..], b, key, id);
    }
  }
}
