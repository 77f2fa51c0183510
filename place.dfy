/** models/place.py: a `Place` with twelve attributes, nine of them behind validating setters. */
module PlaceModel {
  import opened Wrappers
  import opened Json
  import opened Text

  /**
   * The twelve attributes. Numbers keep the JSON value as given (an integer
   * stays an integer); `cityId`, `hostUserId` and `amenities` are plain
   * attributes and hold whatever was assigned.
   */
  datatype PlaceFields = PlaceFields(
    name: string, description: string, address: string,
    latitude: Value, longitude: Value,
    numberOfRooms: int, bathrooms: int, pricePerNight: Value, maxGuests: int,
    cityId: Value, hostUserId: Value, amenities: Value)

  /** The defaults of `__init__`: the counts start at 0, which their own setters refuse. */
  const Blank := PlaceFields("", "", "", Float(0.0), Float(0.0), 0, 0, Float(0.0), 0, Str(""), Str(""), StrList([]))

  /** The twelve attributes `__init__` passes on to `setattr`. */
  datatype Attr =
    | Name | Description | Address | Latitude | Longitude | NumberOfRooms
    | Bathrooms | PricePerNight | MaxGuests | CityId | HostUserId | Amenities

  /** The keyword-argument name of each attribute. */
  function KeyOf(a: Attr): string {
    match a
    case Name => "name"
    case Description => "description"
    case Address => "address"
    case Latitude => "latitude"
    case Longitude => "longitude"
    case NumberOfRooms => "number_of_rooms"
    case Bathrooms => "bathrooms"
    case PricePerNight => "price_per_night"
    case MaxGuests => "max_guests"
    case CityId => "city_id"
    case HostUserId => "host_user_id"
    case Amenities => "amenities"
  }

  /** The allowed-key list of `__init__`: every other key, `host_id` among them, is dropped. */
  function AttrOf(k: string): (a: Option<Attr>)
    ensures a.Some? ==> KeyOf(a.value) == k
    ensures a.None? ==> forall b :: KeyOf(b) != k
  {
    if k == "name" then Some(Name)
    else if k == "description" then Some(Description)
    else if k == "address" then Some(Address)
    else if k == "latitude" then Some(Latitude)
    else if k == "longitude" then Some(Longitude)
    else if k == "number_of_rooms" then Some(NumberOfRooms)
    else if k == "bathrooms" then Some(Bathrooms)
    else if k == "price_per_night" then Some(PricePerNight)
    else if k == "max_guests" then Some(MaxGuests)
    else if k == "city_id" then Some(CityId)
    else if k == "host_user_id" then Some(HostUserId)
    else if k == "amenities" then Some(Amenities)
    else None
  }

  /** Each key names one attribute only. */
  lemma KeyOfInjective(a: Attr, b: Attr)
    ensures KeyOf(a) == KeyOf(b) <==> a == b
  {
  }

  lemma AttrOfKey(a: Attr)
    ensures AttrOf(KeyOf(a)) == Some(a)
  {
    KeyOfInjective(AttrOf(KeyOf(a)).value, a);
  }

  /** `isinstance(value, (int, float))` and within -90..90, both bounds included. */
  predicate IsValidLatitude(v: Value) {
    AsNumber(v).Some? && -90.0 <= AsNumber(v).value <= 90.0
  }

  /** A number within -180..180, both bounds included. */
  predicate IsValidLongitude(v: Value) {
    AsNumber(v).Some? && -180.0 <= AsNumber(v).value <= 180.0
  }

  /** A number at or above zero: a free night is allowed. */
  predicate IsValidPrice(v: Value) {
    AsNumber(v).Some? && AsNumber(v).value >= 0.0
  }

  /** Rooms, bathrooms and guests: an integer above zero. */
  predicate IsValidCount(v: Value) {
    v.Int? && v.i > 0
  }

  /** Whether the setter of `a` takes `v`; a non-string name makes `strip` raise, which also aborts. */
  predicate Accepts(a: Attr, v: Value) {
    match a
    case Name => v.Str? && IsValidName(v.s)
    case Description | Address => v.Str?
    case Latitude => IsValidLatitude(v)
    case Longitude => IsValidLongitude(v)
    case NumberOfRooms | Bathrooms | MaxGuests => IsValidCount(v)
    case PricePerNight => IsValidPrice(v)
    case CityId | HostUserId | Amenities => true
  }

  /** The attribute `a` of `f`, as the JSON value it was set from. */
  function Get(f: PlaceFields, a: Attr): Value {
    match a
    case Name => Str(f.name)
    case Description => Str(f.description)
    case Address => Str(f.address)
    case Latitude => f.latitude
    case Longitude => f.longitude
    case NumberOfRooms => Int(f.numberOfRooms)
    case Bathrooms => Int(f.bathrooms)
    case PricePerNight => f.pricePerNight
    case MaxGuests => Int(f.maxGuests)
    case CityId => f.cityId
    case HostUserId => f.hostUserId
    case Amenities => f.amenities
  }

  /** `setattr(self, KeyOf(a), v)`: the new fields, or None when the setter raises. */
  function Assign(f: PlaceFields, a: Attr, v: Value): (r: Option<PlaceFields>)
    ensures r.Some? <==> Accepts(a, v)
  {
    if !Accepts(a, v) then None
    else match a
      case Name => Some(f.(name := v.s))
      case Description => Some(f.(description := v.s))
      case Address => Some(f.(address := v.s))
      case Latitude => Some(f.(latitude := v))
      case Longitude => Some(f.(longitude := v))
      case NumberOfRooms => Some(f.(numberOfRooms := v.i))
      case Bathrooms => Some(f.(bathrooms := v.i))
      case PricePerNight => Some(f.(pricePerNight := v))
      case MaxGuests => Some(f.(maxGuests := v.i))
      case CityId => Some(f.(cityId := v))
      case HostUserId => Some(f.(hostUserId := v))
      case Amenities => Some(f.(amenities := v))
  }

  /** An accepted assignment stores exactly the value given, and no other attribute changes. */
  lemma AssignGet(f: PlaceFields, a: Attr, v: Value, b: Attr)
    requires Accepts(a, v)
    ensures Get(Assign(f, a, v).value, b) == if b == a then v else Get(f, b)
  {
  }

  /** The loop of `__init__` in the caller's order: the first setter that raises aborts construction. */
  function Construct(f: PlaceFields, kwargs: seq<(string, Value)>): Option<PlaceFields>
    decreases |kwargs|
  {
    if kwargs == [] then Some(f)
    else match AttrOf(kwargs[0].0)
      case None => Construct(f, kwargs[1..])
      case Some(a) =>
        match Assign(f, a, kwargs[0].1)
        case None => None
        case Some(g) => Construct(g, kwargs[1..])
  }

  /** Construction fails exactly when one of the twelve keys carries a value its setter refuses. */
  lemma {:induction false} ConstructFails(f: PlaceFields, kwargs: seq<(string, Value)>)
    ensures Construct(f, kwargs).None? <==>
      exists i :: 0 <= i < |kwargs| && AttrOf(kwargs[i].0).Some? && !Accepts(AttrOf(kwargs[i].0).value, kwargs[i].1)
    decreases |kwargs|
  {
    if kwargs != [] {
      var (k, v) := kwargs[0];
      var rest := kwargs[1..];
      assert forall i :: 0 < i < |kwargs| ==> kwargs[i] == rest[i - 1];
      match AttrOf(k)
      case None =>
        ConstructFails(f, rest);
      case Some(a) =>
        if Accepts(a, v) {
          ConstructFails(Assign(f, a, v).value, rest);
        }
    }
  }

  /**
   * Every attribute ends with the last value given for it, checked or not, and
   * keeps its starting value when no argument names it.
   */
  lemma {:induction false} ConstructTakesLast(f: PlaceFields, kwargs: seq<(string, Value)>, b: Attr)
    requires Construct(f, kwargs).Some?
    ensures Get(Construct(f, kwargs).value, b) == LastValue(kwargs, KeyOf(b), Get(f, b))
    decreases |kwargs|
  {
    if kwargs != [] {
      var (k, v) := kwargs[0];
      match AttrOf(k)
      case None =>
        ConstructTakesLast(f, kwargs[1..], b);
      case Some(a) =>
        KeyOfInjective(a, b);
        AssignGet(f, a, v, b);
        ConstructTakesLast(Assign(f, a, v).value, kwargs[1..], b);
    }
  }

  /**
   * Without a `host_user_id` argument the host is never touched; `create_place`
   * passes `host_id` instead, so its places keep the empty host of `Blank`.
   */
  lemma HostKeptWithoutHostUserId(f: PlaceFields, kwargs: seq<(string, Value)>)
    requires forall i :: 0 <= i < |kwargs| ==> kwargs[i].0 != "host_user_id"
    requires Construct(f, kwargs).Some?
    ensures Construct(f, kwargs).value.hostUserId == f.hostUserId
  {
    var r := Construct(f, kwargs).value;
    LastValueAbsent(kwargs, "host_user_id", f.hostUserId);
    ConstructTakesLast(f, kwargs, HostUserId);
    assert Get(r, HostUserId) == r.hostUserId;
  }

  /** Every attribute holds its default or a value its setter accepts. */
  ghost predicate Sound(f: PlaceFields) {
    forall a :: Get(f, a) == Get(Blank, a) || Accepts(a, Get(f, a))
  }

  lemma {:induction false} ConstructKeepsSound(f: PlaceFields, kwargs: seq<(string, Value)>)
    requires Sound(f)
    ensures Construct(f, kwargs).Some? ==> Sound(Construct(f, kwargs).value)
    decreases |kwargs|
  {
    if kwargs != [] {
      var (k, v) := kwargs[0];
      match AttrOf(k)
      case None =>
        ConstructKeepsSound(f, kwargs[1..]);
      case Some(a) =>
        if Accepts(a, v) {
          var g := Assign(f, a, v).value;
          forall b
            ensures Get(g, b) == Get(Blank, b) || Accepts(b, Get(g, b))
          {
            AssignGet(f, a, v, b);
          }
          ConstructKeepsSound(g, kwargs[1..]);
        }
    }
  }

  /** The default counts are ones the setters would refuse. */
  lemma DefaultCountsRefused()
    ensures Blank.numberOfRooms == 0 && !Accepts(NumberOfRooms, Get(Blank, NumberOfRooms))
    ensures Blank.bathrooms == 0 && !Accepts(Bathrooms, Get(Blank, Bathrooms))
    ensures Blank.maxGuests == 0 && !Accepts(MaxGuests, Get(Blank, MaxGuests))
  {
  }

  class Place {
    const id: string
    const createdAt: Timestamp
    var updatedAt: Timestamp
    var name: string
    var description: string
    var address: string
    var latitude: Value
    var longitude: Value
    var numberOfRooms: int
    var bathrooms: int
    var pricePerNight: Value
    var maxGuests: int
    var cityId: Value
    var hostUserId: Value
    var amenities: Value

    function Fields(): PlaceFields
      reads this
    {
      PlaceFields(name, description, address, latitude, longitude,
        numberOfRooms, bathrooms, pricePerNight, maxGuests, cityId, hostUserId, amenities)
    }

    /** The defaults: two separate clock readings and the field values of `Blank`. */
    constructor (id: string, created: Timestamp, updated: Timestamp)
      ensures this.id == id && createdAt == created && updatedAt == updated
      ensures Fields() == Blank
    {
      this.id := id;
      createdAt := created;
      updatedAt := updated;
      name, description, address := "", "", "";
      latitude, longitude, pricePerNight := Float(0.0), Float(0.0), Float(0.0);
      numberOfRooms, bathrooms, maxGuests := 0, 0, 0;
      cityId, hostUserId, amenities := Str(""), Str(""), StrList([]);
    }

    /** Non-blank, letters and spaces only; a value that is not a string fails too. */
    method SetName(value: Value) returns (ok: bool)
      modifies this`name
      ensures ok == (value.Str? && IsValidName(value.s))
      ensures name == if ok then value.s else old(name)
    {
      ok := value.Str? && IsValidName(value.s);
      if ok {
        name := value.s;
      }
    }

    /** Any string, the empty one included. */
    method SetDescription(value: Value) returns (ok: bool)
      modifies this`description
      ensures ok == value.Str?
      ensures description == if ok then value.s else old(description)
    {
      ok := value.Str?;
      if ok {
        description := value.s;
      }
    }

    /** Any string, the empty one included. */
    method SetAddress(value: Value) returns (ok: bool)
      modifies this`address
      ensures ok == value.Str?
      ensures address == if ok then value.s else old(address)
    {
      ok := value.Str?;
      if ok {
        address := value.s;
      }
    }

    method SetLatitude(value: Value) returns (ok: bool)
      modifies this`latitude
      ensures ok == (AsNumber(value).Some? && -90.0 <= AsNumber(value).value <= 90.0)
      ensures latitude == if ok then value else old(latitude)
    {
      ok := IsValidLatitude(value);
      if ok {
        latitude := value;
      }
    }

    method SetLongitude(value: Value) returns (ok: bool)
      modifies this`longitude
      ensures ok == (AsNumber(value).Some? && -180.0 <= AsNumber(value).value <= 180.0)
      ensures longitude == if ok then value else old(longitude)
    {
      ok := IsValidLongitude(value);
      if ok {
        longitude := value;
      }
    }

    method SetNumberOfRooms(value: Value) returns (ok: bool)
      modifies this`numberOfRooms
      ensures ok == (value.Int? && value.i > 0)
      ensures numberOfRooms == if ok then value.i else old(numberOfRooms)
    {
      ok := IsValidCount(value);
      if ok {
        numberOfRooms := value.i;
      }
    }

    method SetBathrooms(value: Value) returns (ok: bool)
      modifies this`bathrooms
      ensures ok == (value.Int? && value.i > 0)
      ensures bathrooms == if ok then value.i else old(bathrooms)
    {
      ok := IsValidCount(value);
      if ok {
        bathrooms := value.i;
      }
    }

    /** A number at or above zero: a free night is allowed. */
    method SetPricePerNight(value: Value) returns (ok: bool)
      modifies this`pricePerNight
      ensures ok == (AsNumber(value).Some? && AsNumber(value).value >= 0.0)
      ensures pricePerNight == if ok then value else old(pricePerNight)
    {
      ok := IsValidPrice(value);
      if ok {
        pricePerNight := value;
      }
    }

    method SetMaxGuests(value: Value) returns (ok: bool)
      modifies this`maxGuests
      ensures ok == (value.Int? && value.i > 0)
      ensures maxGuests == if ok then value.i else old(maxGuests)
    {
      ok := IsValidCount(value);
      if ok {
        maxGuests := value.i;
      }
    }

    /** `setattr(self, KeyOf(a), v)`: the validating setter of `a`, or a plain assignment for the three unchecked attributes. */
    method SetAttr(a: Attr, v: Value) returns (ok: bool)
      modifies this`name, this`description, this`address, this`latitude, this`longitude, this`numberOfRooms,
        this`bathrooms, this`pricePerNight, this`maxGuests, this`cityId, this`hostUserId, this`amenities
      ensures ok == Assign(old(Fields()), a, v).Some?
      ensures Fields() == Assign(old(Fields()), a, v).GetOr(old(Fields()))
    {
      ok := true;
      match a
      case Name => ok := SetName(v);
      case Description => ok := SetDescription(v);
      case Address => ok := SetAddress(v);
      case Latitude => ok := SetLatitude(v);
      case Longitude => ok := SetLongitude(v);
      case NumberOfRooms => ok := SetNumberOfRooms(v);
      case Bathrooms => ok := SetBathrooms(v);
      case PricePerNight => ok := SetPricePerNight(v);
      case MaxGuests => ok := SetMaxGuests(v);
      case CityId => cityId := v;
      case HostUserId => hostUserId := v;
      case Amenities => amenities := v;
    }
  }

  /** `Place(**kwargs)`: None when a setter raised. */
  method NewPlace(id: string, created: Timestamp, updated: Timestamp, kwargs: seq<(string, Value)>)
    returns (place: Option<Place>)
    ensures place.None? <==> Construct(Blank, kwargs).None?
    ensures place.Some? ==> fresh(place.value) && Construct(Blank, kwargs) == Some(place.value.Fields())
    ensures place.Some? ==> place.value.id == id && place.value.createdAt == created && place.value.updatedAt == updated
  {
    var p := new Place(id, created, updated);
    var i := 0;
    while i < |kwargs|
      invariant 0 <= i <= |kwargs|
      invariant p.id == id && p.createdAt == created && p.updatedAt == updated
      invariant Construct(Blank, kwargs) == Construct(p.Fields(), kwargs[i..])
    {
      var (k, v) := kwargs[i];
      assert kwargs[i..][0] == (k, v) && kwargs[i..][1..] == kwargs[i + 1..];
      match AttrOf(k) {
        case Some(a) =>
          var ok := p.SetAttr(a, v);
          if !ok {
            return None;
          }
        case None =>
      }
      i := i + 1;
    }
    return Some(p);
  }
}
