/** models/user.py: a `User` whose four fields are set only through validating setters. */
module UserModel {
  import opened Wrappers
  import opened Json
  import opened Text

  /** The four fields the setters guard. */
  datatype UserFields = UserFields(firstName: string, lastName: string, email: string, password: string)

  /** What `__init__` sets before it looks at its keyword arguments. */
  const Blank := UserFields("", "", "", "")

  /** The keyword arguments `__init__` passes on to `setattr`; every other key is dropped. */
  predicate IsUserKey(k: string) {
    k == "first_name" || k == "last_name" || k == "email" || k == "password"
  }

  /** Whether the setter for `k` takes `v` (otherwise it raises `ValueError`). */
  predicate Accepts(k: string, v: string) {
    if k == "first_name" || k == "last_name" then IsValidPersonName(v)
    else if k == "email" then IsValidEmail(v)
    else if k == "password" then IsValidPassword(v)
    else true
  }

  /** `setattr(self, k, v)` for one of the four keys: the new fields, or None when the setter raises. */
  function Assign(f: UserFields, k: string, v: string): (r: Option<UserFields>)
    requires IsUserKey(k)
  {
    if !Accepts(k, v) then None
    else if k == "first_name" then Some(f.(firstName := v))
    else if k == "last_name" then Some(f.(lastName := v))
    else if k == "email" then Some(f.(email := v))
    else Some(f.(password := v))
  }

  /** The loop of `__init__` over `kwargs`, in the caller's order: the first setter that raises aborts construction. */
  function Construct(f: UserFields, kwargs: seq<(string, string)>): Option<UserFields>
    decreases |kwargs|
  {
    if kwargs == [] then Some(f)
    else if !IsUserKey(kwargs[0].0) then Construct(f, kwargs[1..])
    else match Assign(f, kwargs[0].0, kwargs[0].1)
      case None => None
      case Some(g) => Construct(g, kwargs[1..])
  }

  /** Construction fails exactly when one of the four keys carries a value its setter refuses. */
  lemma {:induction false} ConstructFails(f: UserFields, kwargs: seq<(string, string)>)
    ensures Construct(f, kwargs).None? <==>
      exists i :: 0 <= i < |kwargs| && IsUserKey(kwargs[i].0) && !Accepts(kwargs[i].0, kwargs[i].1)
    decreases |kwargs|
  {
    if kwargs != [] {
      var (k, v) := kwargs[0];
      var rest := kwargs[1..];
      assert forall i :: 0 < i < |kwargs| ==> kwargs[i] == rest[i - 1];
      if !IsUserKey(k) {
        ConstructFails(f, rest);
      } else if Accepts(k, v) {
        ConstructFails(Assign(f, k, v).value, rest);
      }
    }
  }

  /**
   * A constructed user holds, in each field, the value of the last argument for
   * that field, and the starting value where no argument names it: keys outside
   * the four change nothing.
   */
  lemma {:induction false} ConstructTakesLast(f: UserFields, kwargs: seq<(string, string)>)
    requires Construct(f, kwargs).Some?
    ensures Construct(f, kwargs).value == UserFields(
      LastValue(kwargs, "first_name", f.firstName), LastValue(kwargs, "last_name", f.lastName),
      LastValue(kwargs, "email", f.email), LastValue(kwargs, "password", f.password))
    decreases |kwargs|
  {
    if kwargs != [] {
      var (k, v) := kwargs[0];
      if !IsUserKey(k) {
        ConstructTakesLast(f, kwargs[1..]);
      } else {
        ConstructTakesLast(Assign(f, k, v).value, kwargs[1..]);
      }
    }
  }

  /** The four arguments `users_post` passes (app.py:176), in its order. */
  function PostArgs(firstName: string, lastName: string, email: string, password: string): seq<(string, string)> {
    [("first_name", firstName), ("last_name", lastName), ("email", email), ("password", password)]
  }

  /** With all four fields given, construction succeeds exactly when every setter accepts, and stores the values as given. */
  lemma ConstructFromAll(firstName: string, lastName: string, email: string, password: string)
    ensures Construct(Blank, PostArgs(firstName, lastName, email, password)) ==
      if IsValidPersonName(firstName) && IsValidPersonName(lastName) && IsValidEmail(email) && IsValidPassword(password)
      then Some(UserFields(firstName, lastName, email, password)) else None
  {
    var args := PostArgs(firstName, lastName, email, password);
    var f1 := Blank.(firstName := firstName);
    var f2 := f1.(lastName := lastName);
    var f3 := f2.(email := email);
    var f4 := f3.(password := password);
    var a3 := [("password", password)];
    var a2 := [("email", email)] + a3;
    var a1 := [("last_name", lastName)] + a2;
    assert args == [("first_name", firstName)] + a1;
    assert Construct(f4, []) == Some(f4);
    assert Construct(f3, a3) == if IsValidPassword(password) then Some(f4) else None by {
      assert a3[1..] == [];
    }
    assert Construct(f2, a2) == if IsValidEmail(email) then Construct(f3, a3) else None by {
      assert a2[0].0 == "email" && a2[1..] == a3;
    }
    assert Construct(f1, a1) == if IsValidPersonName(lastName) then Construct(f2, a2) else None by {
      assert a1[0].0 == "last_name" && a1[1..] == a2;
    }
    assert Construct(Blank, args) == if IsValidPersonName(firstName) then Construct(f1, a1) else None by {
      assert args[0].0 == "first_name" && args[1..] == a1;
    }
  }

  class User {
    const id: string
    const createdAt: Timestamp
    var updatedAt: Timestamp
    var firstName: string
    var lastName: string
    var email: string
    var password: string

    function Fields(): UserFields
      reads this
    {
      UserFields(firstName, lastName, email, password)
    }

    /** The defaults: a single clock reading serves both timestamps, and every field is empty. */
    constructor (id: string, now: Timestamp)
      ensures this.id == id && createdAt == now && updatedAt == now
      ensures Fields() == Blank
    {
      this.id := id;
      createdAt := now;
      updatedAt := now;
      firstName, lastName, email, password := "", "", "", "";
    }

    method SetFirstName(value: string) returns (ok: bool)
      modifies this`firstName
      ensures ok == IsValidPersonName(value)
      ensures firstName == if ok then value else old(firstName)
    {
      ok := IsValidPersonName(value);
      if ok {
        firstName := value;
      }
    }

    method SetLastName(value: string) returns (ok: bool)
      modifies this`lastName
      ensures ok == IsValidPersonName(value)
      ensures lastName == if ok then value else old(lastName)
    {
      ok := IsValidPersonName(value);
      if ok {
        lastName := value;
      }
    }

    method SetEmail(value: string) returns (ok: bool)
      modifies this`email
      ensures ok == IsValidEmail(value)
      ensures email == if ok then value else old(email)
    {
      ok := IsValidEmail(value);
      if ok {
        email := value;
      }
    }

    method SetPassword(value: string) returns (ok: bool)
      modifies this`password
      ensures ok == IsValidPassword(value)
      ensures password == if ok then value else old(password)
    {
      ok := IsValidPassword(value);
      if ok {
        password := value;
      }
    }

    /** `setattr(self, k, v)`: runs the setter of field `k`. */
    method SetAttr(k: string, v: string) returns (ok: bool)
      requires IsUserKey(k)
      modifies this`firstName, this`lastName, this`email, this`password
      ensures ok == Assign(old(Fields()), k, v).Some?
      ensures Fields() == Assign(old(Fields()), k, v).GetOr(old(Fields()))
    {
      if k == "first_name" {
        ok := SetFirstName(v);
      } else if k == "last_name" {
        ok := SetLastName(v);
      } else if k == "email" {
        ok := SetEmail(v);
      } else {
        ok := SetPassword(v);
      }
    }
  }

  /** `User(**kwargs)`: None when a setter raised and the constructor did not finish. */
  method NewUser(id: string, now: Timestamp, kwargs: seq<(string, string)>) returns (user: Option<User>)
    ensures user.None? <==> Construct(Blank, kwargs).None?
    ensures user.Some? ==> fresh(user.value) && Construct(Blank, kwargs) == Some(user.value.Fields())
    ensures user.Some? ==> user.value.id == id && user.value.createdAt == now && user.value.updatedAt == now
  {
    var u := new User(id, now);
    var i := 0;
    while i < |kwargs|
      invariant 0 <= i <= |kwargs|
      invariant u.id == id && u.createdAt == now && u.updatedAt == now
      invariant Construct(Blank, kwargs) == Construct(u.Fields(), kwargs[i..])
    {
      var (k, v) := kwargs[i];
      assert kwargs[i..][0] == (k, v) && kwargs[i..][1..] == kwargs[i + 1..];
      if IsUserKey(k) {
        var ok := u.SetAttr(k, v);
        if !ok {
          return None;
        }
      }
      i := i + 1;
    }
    return Some(u);
  }

  /**
   * `User(first_name=..., last_name=..., email=..., password=...)`, the call
   * `users_post` makes: it succeeds exactly when all four setters accept, and
   * the user then holds the four values as given.
   */
  method NewUserFrom(id: string, now: Timestamp, firstName: string, lastName: string, email: string, password: string)
    returns (user: Option<User>)
    ensures user.Some? <==>
      IsValidPersonName(firstName) && IsValidPersonName(lastName) && IsValidEmail(email) && IsValidPassword(password)
    ensures user.Some? ==> fresh(user.value) && user.value.Fields() == UserFields(firstName, lastName, email, password)
    ensures user.Some? ==> user.value.id == id && user.value.createdAt == now && user.value.updatedAt == now
  {
    ConstructFromAll(firstName, lastName, email, password);
    user := NewUser(id, now, PostArgs(firstName, lastName, email, password));
  }
}
