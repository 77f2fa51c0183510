/** models/city.py: a `City` whose name is validated and whose country must be in the country store. */
module CityModel {
  import opened Wrappers
  import opened Json
  import opened Text

  datatype CityFields = CityFields(name: string, countryId: string)

  const Blank := CityFields("", "")

  /** `__init__` honours `country_id` and `name` and drops every other keyword argument. */
  predicate IsCityKey(k: string) {
    k == "country_id" || k == "name"
  }

  /** `countryIds` are the keys of the country store the `country_id` setter looks into. */
  predicate Accepts(k: string, v: string, countryIds: set<string>) {
    if k == "name" then IsValidName(v)
    else if k == "country_id" then v in countryIds
    else true
  }

  function Assign(f: CityFields, k: string, v: string, countryIds: set<string>): (r: Option<CityFields>)
    requires IsCityKey(k)
  {
    if !Accepts(k, v, countryIds) then None
    else if k == "name" then Some(f.(name := v))
    else Some(f.(countryId := v))
  }

  function Construct(f: CityFields, kwargs: seq<(string, string)>, countryIds: set<string>): Option<CityFields>
    decreases |kwargs|
  {
    if kwargs == [] then Some(f)
    else if !IsCityKey(kwargs[0].0) then Construct(f, kwargs[1..], countryIds)
    else match Assign(f, kwargs[0].0, kwargs[0].1, countryIds)
      case None => None
      case Some(g) => Construct(g, kwargs[1..], countryIds)
  }

  /** Construction fails exactly when the name is refused or the country id is not a stored country. */
  lemma {:induction false} ConstructFails(f: CityFields, kwargs: seq<(string, string)>, countryIds: set<string>)
    ensures Construct(f, kwargs, countryIds).None? <==>
      exists i :: 0 <= i < |kwargs| && IsCityKey(kwargs[i].0) && !Accepts(kwargs[i].0, kwargs[i].1, countryIds)
    decreases |kwargs|
  {
    if kwargs != [] {
      var (k, v) := kwargs[0];
      var rest := kwargs[1..];
      assert forall i :: 0 < i < |kwargs| ==> kwargs[i] == rest[i - 1];
      if !IsCityKey(k) {
        ConstructFails(f, rest, countryIds);
      } else if Accepts(k, v, countryIds) {
        ConstructFails(Assign(f, k, v, countryIds).value, rest, countryIds);
      }
    }
  }

  /**
   * Each field ends with the last value given for it; a city built without a
   * `country_id` keeps the empty one (as the example route at app.py:43 does).
   */
  lemma {:induction false} ConstructTakesLast(f: CityFields, kwargs: seq<(string, string)>, countryIds: set<string>)
    requires Construct(f, kwargs, countryIds).Some?
    ensures Construct(f, kwargs, countryIds).value ==
      CityFields(LastValue(kwargs, "name", f.name), LastValue(kwargs, "country_id", f.countryId))
    decreases |kwargs|
  {
    if kwargs != [] {
      var (k, v) := kwargs[0];
      if !IsCityKey(k) {
        ConstructTakesLast(f, kwargs[1..], countryIds);
      } else {
        ConstructTakesLast(Assign(f, k, v, countryIds).value, kwargs[1..], countryIds);
      }
    }
  }

  /** The arguments `cities_post` passes (app.py:475). */
  function PostArgs(name: string, countryId: string): seq<(string, string)> {
    [("name", name), ("country_id", countryId)]
  }

  lemma ConstructFromBoth(name: string, countryId: string, countryIds: set<string>)
    ensures Construct(Blank, PostArgs(name, countryId), countryIds) ==
      if IsValidName(name) && countryId in countryIds then Some(CityFields(name, countryId)) else None
  {
    var args := PostArgs(name, countryId);
    var a1 := [("country_id", countryId)];
    assert args == [("name", name)] + a1;
    assert Construct(Blank.(name := name), a1, countryIds) ==
      if countryId in countryIds then Some(CityFields(name, countryId)) else None by {
      assert a1[0].0 == "country_id" && a1[1..] == [];
    }
    assert Construct(Blank, args, countryIds) ==
      if IsValidName(name) then Construct(Blank.(name := name), a1, countryIds) else None by {
      assert args[0].0 == "name" && args[1..] == a1;
    }
  }

  class City {
    const id: string
    const createdAt: Timestamp
    var updatedAt: Timestamp
    var name: string
    var countryId: string

    function Fields(): CityFields
      reads this
    {
      CityFields(name, countryId)
    }

    /** The defaults: one clock reading for both timestamps, empty name and country. */
    constructor (id: string, now: Timestamp)
      ensures this.id == id && createdAt == now && updatedAt == now
      ensures Fields() == Blank
    {
      this.id := id;
      createdAt := now;
      updatedAt := now;
      name, countryId := "", "";
    }

    method SetName(value: string) returns (ok: bool)
      modifies this`name
      ensures ok == IsValidName(value)
      ensures name == if ok then value else old(name)
    {
      ok := IsValidName(value);
      if ok {
        name := value;
      }
    }

    /** `country_data.get(value) is not None`: the id must be a key of the country store. */
    method SetCountryId(value: string, countryIds: set<string>) returns (ok: bool)
      modifies this`countryId
      ensures ok == (value in countryIds)
      ensures countryId == if ok then value else old(countryId)
    {
      ok := value in countryIds;
      if ok {
        countryId := value;
      }
    }

    method SetAttr(k: string, v: string, countryIds: set<string>) returns (ok: bool)
      requires IsCityKey(k)
      modifies this`name, this`countryId
      ensures ok == Assign(old(Fields()), k, v, countryIds).Some?
      ensures Fields() == Assign(old(Fields()), k, v, countryIds).GetOr(old(Fields()))
    {
      if k == "name" {
        ok := SetName(v);
      } else {
        ok := SetCountryId(v, countryIds);
      }
    }
  }

  /** `City(**kwargs)` against a country store with keys `countryIds`: None when a setter raised. */
  method NewCity(id: string, now: Timestamp, kwargs: seq<(string, string)>, countryIds: set<string>)
    returns (city: Option<City>)
    ensures city.None? <==> Construct(Blank, kwargs, countryIds).None?
    ensures city.Some? ==> fresh(city.value) && Construct(Blank, kwargs, countryIds) == Some(city.value.Fields())
    ensures city.Some? ==> city.value.id == id && city.value.createdAt == now && city.value.updatedAt == now
  {
    var c := new City(id, now);
    var i := 0;
    while i < |kwargs|
      invariant 0 <= i <= |kwargs|
      invariant c.id == id && c.createdAt == now && c.updatedAt == now
      invariant Construct(Blank, kwargs, countryIds) == Construct(c.Fields(), kwargs[i..], countryIds)
    {
      var (k, v) := kwargs[i];
      assert kwargs[i..][0] == (k, v) && kwargs[i..][1..] == kwargs[i + 1..];
      if IsCityKey(k) {
        var ok := c.SetAttr(k, v, countryIds);
        if !ok {
          return None;
        }
      }
      i := i + 1;
    }
    return Some(c);
  }

  /** `City(name=..., country_id=...)`, the call `cities_post` makes. */
  method NewCityFrom(id: string, now: Timestamp, name: string, countryId: string, countryIds: set<string>)
    returns (city: Option<City>)
    ensures city.Some? <==> IsValidName(name) && countryId in countryIds
    ensures city.Some? ==> fresh(city.value) && city.value.Fields() == CityFields(name, countryId)
    ensures city.Some? ==> city.value.id == id && city.value.createdAt == now && city.value.updatedAt == now
  {
    ConstructFromBoth(name, countryId, countryIds);
    city := NewCity(id, now, PostArgs(name, countryId), countryIds);
  }
}
