/** models/amenity.py: an `Amenity` whose name must be a string with some non-whitespace in it. */
module AmenityModel {
  import opened Wrappers
  import opened Json
  import opened Text

  /** The `name` setter's check: a string that is not blank after `strip()`; it is stored unstripped. */
  predicate IsValidAmenityName(v: Value) {
    v.Str? && HasContent(v.s)
  }

  /** `setattr` for the one key `__init__` honours: the new name, or None when the setter raises. */
  function Assign(name: string, v: Value): (r: Option<string>)
  {
    if IsValidAmenityName(v) then Some(v.s) else None
  }

  /** The loop of `__init__`: only `name` entries are applied, in order; every other key is dropped. */
  function Construct(name: string, kwargs: seq<(string, Value)>): Option<string>
    decreases |kwargs|
  {
    if kwargs == [] then Some(name)
    else if kwargs[0].0 != "name" then Construct(name, kwargs[1..])
    else match Assign(name, kwargs[0].1)
      case None => None
      case Some(n) => Construct(n, kwargs[1..])
  }

  /** Construction fails exactly when some `name` entry is not a string with content. */
  lemma {:induction false} ConstructFails(name: string, kwargs: seq<(string, Value)>)
    ensures Construct(name, kwargs).None? <==>
      exists i :: 0 <= i < |kwargs| && kwargs[i].0 == "name" && !IsValidAmenityName(kwargs[i].1)
    decreases |kwargs|
  {
    if kwargs != [] {
      var rest := kwargs[1..];
      assert forall i :: 0 < i < |kwargs| ==> kwargs[i] == rest[i - 1];
      if kwargs[0].0 != "name" {
        ConstructFails(name, rest);
      } else if IsValidAmenityName(kwargs[0].1) {
        ConstructFails(kwargs[0].1.s, rest);
      }
    }
  }

  /** A constructed amenity holds the last `name` given, or its starting name when none is given. */
  lemma {:induction false} ConstructTakesLast(name: string, kwargs: seq<(string, Value)>)
    requires Construct(name, kwargs).Some?
    ensures Str(Construct(name, kwargs).value) == LastValue(kwargs, "name", Str(name))
    decreases |kwargs|
  {
    if kwargs != [] {
      if kwargs[0].0 != "name" {
        ConstructTakesLast(name, kwargs[1..]);
      } else {
        ConstructTakesLast(kwargs[0].1.s, kwargs[1..]);
      }
    }
  }

  /** An amenity built without a `name` entry keeps the empty name. */
  lemma NamelessIsEmpty(kwargs: seq<(string, Value)>)
    requires forall i :: 0 <= i < |kwargs| ==> kwargs[i].0 != "name"
    ensures Construct("", kwargs) == Some("")
  {
    ConstructFails("", kwargs);
    ConstructTakesLast("", kwargs);
    LastValueAbsent(kwargs, "name", Str(""));
  }

  class Amenity {
    const id: string
    const createdAt: Timestamp
    var updatedAt: Timestamp
    var name: string

    /** The defaults: two separate clock readings, which need not agree, and an empty name. */
    constructor (id: string, created: Timestamp, updated: Timestamp)
      ensures this.id == id && createdAt == created && updatedAt == updated
      ensures name == ""
    {
      this.id := id;
      createdAt := created;
      updatedAt := updated;
      name := "";
    }

    method SetName(value: Value) returns (ok: bool)
      modifies this`name
      ensures ok == IsValidAmenityName(value)
      ensures name == if ok then value.s else old(name)
    {
      ok := IsValidAmenityName(value);
      if ok {
        name := value.s;
      }
    }
  }

  /** `Amenity(**kwargs)`: None when the `name` setter raised. */
  method NewAmenity(id: string, created: Timestamp, updated: Timestamp, kwargs: seq<(string, Value)>)
    returns (amenity: Option<Amenity>)
    ensures amenity.None? <==> Construct("", kwargs).None?
    ensures amenity.Some? ==> fresh(amenity.value) && Construct("", kwargs) == Some(amenity.value.name)
    ensures amenity.Some? ==> amenity.value.id == id && amenity.value.createdAt == created && amenity.value.updatedAt == updated
  {
    var a := new Amenity(id, created, updated);
    var i := 0;
    while i < |kwargs|
      invariant 0 <= i <= |kwargs|
      invariant a.id == id && a.createdAt == created && a.updatedAt == updated
      invariant Construct("", kwargs) == Construct(a.name, kwargs[i..])
    {
      var (k, v) := kwargs[i];
      assert kwargs[i..][0] == (k, v) && kwargs[i..][1..] == kwargs[i + 1..];
      if k == "name" {
        var ok := a.SetName(v);
        if !ok {
          return None;
        }
      }
      i := i + 1;
    }
    return Some(a);
  }
}
