/** models/country.py: a `Country` with a validated name and two-letter code. */
module CountryModel {
  import opened Wrappers
  import opened Json
  import opened Text

  datatype CountryFields = CountryFields(name: string, code: string)

  const Blank := CountryFields("", "")

  /** `__init__` honours `name` and `code` and drops every other keyword argument. */
  predicate IsCountryKey(k: string) {
    k == "name" || k == "code"
  }

  predicate Accepts(k: string, v: string) {
    if k == "name" then IsValidName(v)
    else if k == "code" then IsValidCountryCode(v)
    else true
  }

  function Assign(f: CountryFields, k: string, v: string): (r: Option<CountryFields>)
    requires IsCountryKey(k)
  {
    if !Accepts(k, v) then None
    else if k == "name" then Some(f.(name := v))
    else Some(f.(code := v))
  }

  function Construct(f: CountryFields, kwargs: seq<(string, string)>): Option<CountryFields>
    decreases |kwargs|
  {
    if kwargs == [] then Some(f)
    else if !IsCountryKey(kwargs[0].0) then Construct(f, kwargs[1..])
    else match Assign(f, kwargs[0].0, kwargs[0].1)
      case None => None
      case Some(g) => Construct(g, kwargs[1..])
  }

  /** Construction fails exactly when `name` or `code` carries a value its setter refuses. */
  lemma {:induction false} ConstructFails(f: CountryFields, kwargs: seq<(string, string)>)
    ensures Construct(f, kwargs).None? <==>
      exists i :: 0 <= i < |kwargs| && IsCountryKey(kwargs[i].0) && !Accepts(kwargs[i].0, kwargs[i].1)
    decreases |kwargs|
  {
    if kwargs != [] {
      var (k, v) := kwargs[0];
      var rest := kwargs[1..];
      assert forall i :: 0 < i < |kwargs| ==> kwargs[i] == rest[i - 1];
      if !IsCountryKey(k) {
        ConstructFails(f, rest);
      } else if Accepts(k, v) {
        ConstructFails(Assign(f, k, v).value, rest);
      }
    }
  }

  /** Each field ends with the last value given for it, or its starting value; other keys change nothing. */
  lemma {:induction false} ConstructTakesLast(f: CountryFields, kwargs: seq<(string, string)>)
    requires Construct(f, kwargs).Some?
    ensures Construct(f, kwargs).value == CountryFields(LastValue(kwargs, "name", f.name), LastValue(kwargs, "code", f.code))
    decreases |kwargs|
  {
    if kwargs != [] {
      var (k, v) := kwargs[0];
      if !IsCountryKey(k) {
        ConstructTakesLast(f, kwargs[1..]);
      } else {
        ConstructTakesLast(Assign(f, k, v).value, kwargs[1..]);
      }
    }
  }

  /** The arguments `countries_post` passes (app.py:277). */
  function PostArgs(name: string, code: string): seq<(string, string)> {
    [("name", name), ("code", code)]
  }

  lemma ConstructFromBoth(name: string, code: string)
    ensures Construct(Blank, PostArgs(name, code)) ==
      if IsValidName(name) && IsValidCountryCode(code) then Some(CountryFields(name, code)) else None
  {
    var args := PostArgs(name, code);
    var a1 := [("code", code)];
    assert args == [("name", name)] + a1;
    assert Construct(Blank.(name := name), a1) == if IsValidCountryCode(code) then Some(CountryFields(name, code)) else None by {
      assert a1[0].0 == "code" && a1[1..] == [];
    }
    assert Construct(Blank, args) == if IsValidName(name) then Construct(Blank.(name := name), a1) else None by {
      assert args[0].0 == "name" && args[1..] == a1;
    }
  }

  class Country {
    const id: string
    const createdAt: Timestamp
    var updatedAt: Timestamp
    var name: string
    var code: string

    function Fields(): CountryFields
      reads this
    {
      CountryFields(name, code)
    }

    /** The defaults: one clock reading for both timestamps, empty name and code. */
    constructor (id: string, now: Timestamp)
      ensures this.id == id && createdAt == now && updatedAt == now
      ensures Fields() == Blank
    {
      this.id := id;
      createdAt := now;
      updatedAt := now;
      name, code := "", "";
    }

    method SetName(value: string) returns (ok: bool)
      modifies this`name
      ensures ok == IsValidName(value)
      ensures name == if ok then value else old(name)
    {
      ok := IsValidName(value);
      if ok {
        name := value;
      }
    }

    method SetCode(value: string) returns (ok: bool)
      modifies this`code
      ensures ok == IsValidCountryCode(value)
      ensures code == if ok then value else old(code)
    {
      ok := IsValidCountryCode(value);
      if ok {
        code := value;
      }
    }

    method SetAttr(k: string, v: string) returns (ok: bool)
      requires IsCountryKey(k)
      modifies this`name, this`code
      ensures ok == Assign(old(Fields()), k, v).Some?
      ensures Fields() == Assign(old(Fields()), k, v).GetOr(old(Fields()))
    {
      if k == "name" {
        ok := SetName(v);
      } else {
        ok := SetCode(v);
      }
    }
  }

  /** `Country(**kwargs)`: None when a setter raised. */
  method NewCountry(id: string, now: Timestamp, kwargs: seq<(string, string)>) returns (country: Option<Country>)
    ensures country.None? <==> Construct(Blank, kwargs).None?
    ensures country.Some? ==> fresh(country.value) && Construct(Blank, kwargs) == Some(country.value.Fields())
    ensures country.Some? ==> country.value.id == id && country.value.createdAt == now && country.value.updatedAt == now
  {
    var c := new Country(id, now);
    var i := 0;
    while i < |kwargs|
      invariant 0 <= i <= |kwargs|
      invariant c.id == id && c.createdAt == now && c.updatedAt == now
      invariant Construct(Blank, kwargs) == Construct(c.Fields(), kwargs[i..])
    {
      var (k, v) := kwargs[i];
      assert kwargs[i..][0] == (k, v) && kwargs[i..][1..] == kwargs[i + 1..];
      if IsCountryKey(k) {
        var ok := c.SetAttr(k, v);
        if !ok {
          return None;
        }
      }
      i := i + 1;
    }
    return Some(c);
  }

  /** `Country(name=..., code=...)`, the call `countries_post` makes. */
  method NewCountryFrom(id: string, now: Timestamp, name: string, code: string) returns (country: Option<Country>)
    ensures country.Some? <==> IsValidName(name) && IsValidCountryCode(code)
    ensures country.Some? ==> fresh(country.value) && country.value.Fields() == CountryFields(name, code)
    ensures country.Some? ==> country.value.id == id && country.value.createdAt == now && country.value.updatedAt == now
  {
    ConstructFromBoth(name, code);
    country := NewCountry(id, now, PostArgs(name, code));
  }
}
