/**
 * The store handlers of app.py. The global dictionaries become the fields of
 * one `Stores` object; each handler is a method that changes only the store
 * it writes, and answers with an `Outcome` in place of an HTTP response.
 */
module App {
  import opened Wrappers
  import opened Json
  import opened Text
  import opened Dicts
  import opened Records
  import opened Scans
  import UserModel
  import CountryModel
  import CityModel
  import ReviewModel

  /**
   * How a handler ends. `Rejected` is a `ValueError` from a setter that the
   * handler catches; `ServerError` is an exception nothing catches (a missing
   * key, a wrong type), which the framework turns into a 500.
   */
  datatype Outcome = Ok | Created | NoContent | NotFound | BadRequest | Conflict | Rejected | ServerError

  /** `data.get(k, default)` on a request body of strings. */
  function Field(body: map<string, string>, k: string, default: string): string {
    if k in body then body[k] else default
  }

  /** The id `cities_post` and `cities_put` resolve a code to: the first country with it, unless its id is empty. */
  function FirstCountryId(rows: seq<CountryRow>, code: string): (r: Option<string>)
    ensures r.Some? ==> r.value != "" && exists j :: (0 <= j < |rows| && rows[j].code == code && rows[j].id == r.value
      && forall k :: 0 <= k < j ==> rows[k].code != code)
    ensures (forall j :: 0 <= j < |rows| ==> rows[j].code != code) ==> r.None?
    ensures forall j :: 0 <= j < |rows| && rows[j].code == code && (forall k :: 0 <= k < j ==> rows[k].code != code) ==>
      r == if rows[j].id == "" then None else Some(rows[j].id)
  {
    match FirstCodeIndex(rows, code)
    case None => None
    case Some(i) => if rows[i].id == "" then None else Some(rows[i].id)
  }

  /** The id `countries_specific_cities_get` filters on: the last country with the code, or "" when there is none. */
  function WantedCountryId(rows: seq<CountryRow>, code: string): (r: string)
    ensures (forall j :: 0 <= j < |rows| ==> rows[j].code != code) ==> r == ""
    ensures forall j :: 0 <= j < |rows| && rows[j].code == code && (forall k :: j < k < |rows| ==> rows[k].code != code) ==>
      r == rows[j].id
  {
    match LastCodeIndex(rows, code)
    case None => ""
    case Some(i) => rows[i].id
  }

  /** The writes `update_review` makes before it looks at the rating; neither id is checked against a store. */
  function Retargeted(r: ReviewRow, body: map<string, Value>): ReviewRow {
    r.(commentorUserId := if "commentor_user_id" in body then body["commentor_user_id"] else r.commentorUserId,
       placeId := if "place_id" in body then body["place_id"] else r.placeId)
  }

  /** Every country sits under its own id, as in the loaded stores and after every `countries_post`. */
  ghost predicate KeyedById(d: Dict<string, CountryRow>) {
    forall k :: k in d.entries ==> d.entries[k].id == k
  }

  /**
   * Writing a renamed country back under its key and then under its id is a
   * single in-place update when every country sits under its own id.
   */
  lemma RenameKeyedById(d: Dict<string, CountryRow>, key: string, renamed: CountryRow)
    requires d.Valid() && KeyedById(d) && key in d.entries && renamed.id == d.entries[key].id
    ensures var e := d.Put(key, renamed).Put(renamed.id, renamed);
      && KeyedById(e) && e.keys == d.keys && e.entries == d.entries[key := renamed]
  {
    assert renamed.id == key;
  }

  class Stores {
    var users: Dict<string, UserRow>
    var countries: Dict<string, CountryRow>
    var cities: Dict<string, CityRow>
    var amenities: Dict<string, AmenityRow>
    var reviews: Dict<string, ReviewRow>
    /** Only membership in the place store is consulted by the modelled handlers. */
    var placeIds: set<string>

    ghost predicate Valid()
      reads this
    {
      users.Valid() && countries.Valid() && cities.Valid() && amenities.Valid() && reviews.Valid()
    }

    /** The stores as loaded at start-up. */
    constructor (users: Dict<string, UserRow>, countries: Dict<string, CountryRow>, cities: Dict<string, CityRow>,
                 amenities: Dict<string, AmenityRow>, reviews: Dict<string, ReviewRow>, placeIds: set<string>)
      requires users.Valid() && countries.Valid() && cities.Valid() && amenities.Valid() && reviews.Valid()
      ensures Valid()
      ensures this.users == users && this.countries == countries && this.cities == cities
      ensures this.amenities == amenities && this.reviews == reviews && this.placeIds == placeIds
    {
      this.users, this.countries, this.cities := users, countries, cities;
      this.amenities, this.reviews, this.placeIds := amenities, reviews, placeIds;
    }

    // --- users ---

    /** `users_post`: the new row carries the user's fields and timestamps, but no password. */
    method UsersPost(body: map<string, string>, id: string, now: Timestamp) returns (out: Outcome)
      requires Valid() && id !in users.entries
      modifies this`users
      ensures Valid()
      ensures "email" !in body || "password" !in body ==> out == BadRequest
      ensures "email" in body && "password" in body && ("first_name" !in body || "last_name" !in body) ==> out == ServerError
      ensures out == Ok <==>
        && "email" in body && "password" in body && "first_name" in body && "last_name" in body
        && IsValidPersonName(body["first_name"]) && IsValidPersonName(body["last_name"])
        && IsValidEmail(body["email"]) && IsValidPassword(body["password"])
      ensures "email" in body && "password" in body && "first_name" in body && "last_name" in body && out != Ok ==>
        out == Rejected
      ensures out in {Ok, BadRequest, ServerError, Rejected}
      ensures out == Ok ==> users == old(users).Put(id,
        UserRow(id, body["first_name"], body["last_name"], body["email"], None, now, now))
      ensures out != Ok ==> users == old(users)
    {
      if "email" !in body || "password" !in body {
        return BadRequest;
      }
      if "first_name" !in body || "last_name" !in body {
        return ServerError;
      }
      out := AddUser(body["first_name"], body["last_name"], body["email"], body["password"], id, now);
    }

    /** The `try` block of `users_post` and the store write after it. */
    method AddUser(firstName: string, lastName: string, email: string, password: string, id: string, now: Timestamp)
      returns (out: Outcome)
      requires Valid() && id !in users.entries
      modifies this`users
      ensures Valid()
      ensures out == Ok || out == Rejected
      ensures out == Ok <==>
        IsValidPersonName(firstName) && IsValidPersonName(lastName) && IsValidEmail(email) && IsValidPassword(password)
      ensures out == Ok ==> users == old(users).Put(id, UserRow(id, firstName, lastName, email, None, now, now))
      ensures out != Ok ==> users == old(users)
    {
      var created := UserModel.NewUserFrom(id, now, firstName, lastName, email, password);
      if created.None? {
        return Rejected;
      }
      var u := created.value;
      users := users.Put(u.id, UserRow(u.id, u.firstName, u.lastName, u.email, None, u.createdAt, u.updatedAt));
      out := Ok;
    }

    /** `users_put`: copies `first_name` and `last_name` as given, without the setters' checks. */
    method UsersPut(userId: string, body: map<string, string>) returns (out: Outcome)
      requires Valid()
      modifies this`users
      ensures Valid()
      ensures userId !in old(users.entries) ==> out == BadRequest && users == old(users)
      ensures userId in old(users.entries) ==> out == Ok && users.keys == old(users.keys)
      ensures userId in old(users.entries) ==>
        var u := old(users.entries[userId]);
        users.entries == old(users.entries)[userId := u.(
          firstName := Field(body, "first_name", u.firstName),
          lastName := Field(body, "last_name", u.lastName))]
    {
      if userId !in users.entries {
        return BadRequest;
      }
      var u := users.entries[userId];
      u := u.(firstName := Field(body, "first_name", u.firstName), lastName := Field(body, "last_name", u.lastName));
      users := users.Put(userId, u);
      out := Ok;
    }

    /** `delete_user`. */
    method DeleteUser(userId: string) returns (out: Outcome)
      requires Valid()
      modifies this`users
      ensures Valid()
      ensures userId !in old(users.entries) ==> out == NotFound && users == old(users)
      ensures userId in old(users.entries) ==> out == NoContent && users == old(users).Remove(userId)
    {
      if userId !in users.entries {
        return NotFound;
      }
      users := users.Remove(userId);
      out := NoContent;
    }

    // --- countries ---

    /** `countries_post`: both `name` and `code` must be present and accepted by the setters. */
    method CountriesPost(body: map<string, string>, id: string, now: Timestamp) returns (out: Outcome)
      requires Valid() && id !in countries.entries
      modifies this`countries
      ensures Valid()
      ensures "name" !in body || "code" !in body ==> out == BadRequest
      ensures out == Ok <==>
        "name" in body && "code" in body && IsValidName(body["name"]) && IsValidCountryCode(body["code"])
      ensures "name" in body && "code" in body && out != Ok ==> out == Rejected
      ensures out in {Ok, BadRequest, Rejected}
      ensures out == Ok ==> countries == old(countries).Put(id, CountryRow(id, body["name"], body["code"], now, now))
      ensures out != Ok ==> countries == old(countries)
    {
      if "name" !in body || "code" !in body {
        return BadRequest;
      }
      out := AddCountry(body["name"], body["code"], id, now);
    }

    /** The `try` block of `countries_post` and the store write after it. */
    method AddCountry(name: string, code: string, id: string, now: Timestamp) returns (out: Outcome)
      requires Valid() && id !in countries.entries
      modifies this`countries
      ensures Valid()
      ensures out == Ok || out == Rejected
      ensures out == Ok <==> IsValidName(name) && IsValidCountryCode(code)
      ensures out == Ok ==> countries == old(countries).Put(id, CountryRow(id, name, code, now, now))
      ensures out != Ok ==> countries == old(countries)
    {
      var created := CountryModel.NewCountryFrom(id, now, name, code);
      if created.None? {
        return Rejected;
      }
      var c := created.value;
      countries := countries.Put(c.id, CountryRow(c.id, c.name, c.code, c.createdAt, c.updatedAt));
      out := Ok;
    }

    /**
     * `countries_put`: the last country with the code gets the new name, as
     * given. The row is changed in place under its own key and then stored
     * again under its `id`; in a store keyed by id that is one and the same entry.
     */
    method CountriesPut(code: string, body: map<string, string>) returns (out: Outcome)
      requires Valid()
      modifies this`countries
      ensures Valid()
      ensures LastCodeIndex(old(countries.Values()), code).None? ==> out == BadRequest && countries == old(countries)
      ensures LastCodeIndex(old(countries.Values()), code).Some? ==>
        var key := old(countries.keys)[LastCodeIndex(old(countries.Values()), code).value];
        var c := old(countries.entries[key]);
        var renamed := c.(name := Field(body, "name", c.name));
        && out == Ok
        && countries == old(countries).Put(key, renamed).Put(c.id, renamed)
        && (KeyedById(old(countries)) ==>
              KeyedById(countries) && countries.keys == old(countries.keys) && countries.entries == old(countries.entries)[key := renamed])
    {
      var found := FindLastCode(countries.Values(), code);
      if found.None? {
        return BadRequest;
      }
      var key := countries.keys[found.value];
      var c := countries.entries[key];
      c := c.(name := Field(body, "name", c.name));
      if KeyedById(countries) {
        RenameKeyedById(countries, key, c);
      }
      countries := countries.Put(key, c).Put(c.id, c);
      out := Ok;
    }

    /**
     * `countries_specific_cities_get`: the cities of the last country with the
     * code, in store order. With no such country the id searched for is "",
     * so the cities without a country are listed.
     */
    method CountryCities(code: string) returns (rows: seq<CityRow>)
      requires Valid()
      ensures rows == CitiesOf(cities.Values(), WantedCountryId(countries.Values(), code))
      ensures LastCodeIndex(countries.Values(), code).None? ==> rows == CitiesOf(cities.Values(), "")
      ensures forall c :: c in rows <==> c in cities.Values() && c.countryId == WantedCountryId(countries.Values(), code)
    {
      var countryRows := countries.Values();
      var found := FindLastCode(countryRows, code);
      var wanted := if found.Some? then countryRows[found.value].id else "";
      rows := CollectCities(cities.Values(), wanted);
      CitiesOfMembers(cities.Values(), wanted);
    }

    // --- cities ---

    /**
     * `cities_post`: resolves the code to the first matching country, refuses
     * a name already used in that country, and checks the name and the
     * country id through the `City` setters.
     */
    method CitiesPost(body: map<string, string>, id: string, now: Timestamp) returns (out: Outcome)
      requires Valid() && id !in cities.entries
      modifies this`cities
      ensures Valid()
      ensures "name" !in body || "country_code" !in body ==> out == BadRequest && cities == old(cities)
      ensures "name" in body && "country_code" in body ==>
        var cid := FirstCountryId(countries.Values(), body["country_code"]);
        && (cid.None? ==> out == BadRequest)
        && (cid.Some? && CityTaken(old(cities.Values()), cid.value, body["name"], None) ==> out == Conflict)
        && (cid.Some? && !CityTaken(old(cities.Values()), cid.value, body["name"], None) && out != Created ==> out == Rejected)
        && (out == Created <==>
              cid.Some? && !CityTaken(old(cities.Values()), cid.value, body["name"], None)
              && IsValidName(body["name"]) && cid.value in countries.entries)
        && (out == Created ==> cities == old(cities).Put(id, CityRow(id, body["name"], cid.value, now, now)))
      ensures out in {Created, BadRequest, Conflict, Rejected}
      ensures out != Created ==> cities == old(cities)
    {
      if "name" !in body || "country_code" !in body {
        return BadRequest;
      }
      var name, code := body["name"], body["country_code"];
      var countryRows := countries.Values();
      var found := FindFirstCode(countryRows, code);
      if found.None? || countryRows[found.value].id == "" {
        return BadRequest;
      }
      var countryId := countryRows[found.value].id;
      var clash := FindCityClash(cities.Values(), countryId, name, None);
      if clash {
        return Conflict;
      }
      var created := CityModel.NewCityFrom(id, now, name, countryId, countries.entries.Keys);
      if created.None? {
        return Rejected;
      }
      var c := created.value;
      cities := cities.Put(c.id, CityRow(c.id, c.name, c.countryId, c.createdAt, c.updatedAt));
      out := Created;
    }

    /**
     * `cities_put`: the uniqueness scan skips the city's own row id; on success
     * only that city's name, country and `updated_at` change, and the name is
     * not checked.
     */
    method CitiesPut(cityId: string, body: map<string, string>, now: Timestamp) returns (out: Outcome)
      requires Valid()
      modifies this`cities
      ensures Valid()
      ensures cityId !in old(cities.entries) ==> out == NotFound
      ensures cityId in old(cities.entries) && "country_code" !in body ==>
        out == if |countries.keys| == 0 then BadRequest else ServerError
      ensures cityId in old(cities.entries) && "country_code" in body ==>
        var cid := FirstCountryId(countries.Values(), body["country_code"]);
        && (cid.None? ==> out == BadRequest)
        && (cid.Some? && "name" !in body ==> out == ServerError)
        && (cid.Some? && "name" in body && CityTaken(old(cities.Values()), cid.value, body["name"], Some(cityId)) ==> out == Conflict)
        && (out == Ok <==> cid.Some? && "name" in body && !CityTaken(old(cities.Values()), cid.value, body["name"], Some(cityId)))
        && (out == Ok ==> cities.keys == old(cities.keys) && cities.entries == old(cities.entries)[cityId :=
              old(cities.entries[cityId]).(name := body["name"], countryId := cid.value, updatedAt := now)])
      ensures out in {Ok, NotFound, BadRequest, Conflict, ServerError}
      ensures out != Ok ==> cities == old(cities)
    {
      if cityId !in cities.entries {
        return NotFound;
      }
      if "country_code" !in body {
        // The code is read only inside the loop over the countries: with none, the lookup fails instead.
        return if |countries.keys| == 0 then BadRequest else ServerError;
      }
      var countryRows := countries.Values();
      var found := FindFirstCode(countryRows, body["country_code"]);
      if found.None? || countryRows[found.value].id == "" {
        return BadRequest;
      }
      var countryId := countryRows[found.value].id;
      if "name" !in body {
        return ServerError;
      }
      var name := body["name"];
      var clash := FindCityClash(cities.Values(), countryId, name, Some(cityId));
      if clash {
        return Conflict;
      }
      var c := cities.entries[cityId];
      cities := cities.Put(cityId, c.(name := name, countryId := countryId, updatedAt := now));
      out := Ok;
    }

    /** `cities_delete`. */
    method DeleteCity(cityId: string) returns (out: Outcome)
      requires Valid()
      modifies this`cities
      ensures Valid()
      ensures cityId !in old(cities.entries) ==> out == NotFound && cities == old(cities)
      ensures cityId in old(cities.entries) ==> out == Ok && cities == old(cities).Remove(cityId)
    {
      if cityId !in cities.entries {
        return NotFound;
      }
      cities := cities.Remove(cityId);
      out := Ok;
    }

    // --- amenities ---

    /**
     * `update_amenity`: the name must be present and not blank, and no other
     * key may hold an amenity with exactly that name.
     */
    method UpdateAmenity(amenityId: string, body: map<string, string>, now: Timestamp) returns (out: Outcome)
      requires Valid()
      modifies this`amenities
      ensures Valid()
      ensures amenityId !in old(amenities.entries) ==> out == NotFound
      ensures amenityId in old(amenities.entries) && ("name" !in body || !HasContent(body["name"])) ==> out == BadRequest
      ensures out == Ok <==>
        amenityId in old(amenities.entries) && "name" in body && HasContent(body["name"])
        && !AmenityTaken(old(amenities), body["name"], amenityId)
      ensures (amenityId in old(amenities.entries) && "name" in body && HasContent(body["name"])
               && AmenityTaken(old(amenities), body["name"], amenityId)) ==> out == Conflict
      ensures out in {Ok, NotFound, BadRequest, Conflict}
      ensures out == Ok ==> amenities.keys == old(amenities.keys) && amenities.entries == old(amenities.entries)[amenityId :=
        old(amenities.entries[amenityId]).(name := body["name"], updatedAt := now)]
      ensures out != Ok ==> amenities == old(amenities)
    {
      if amenityId !in amenities.entries {
        return NotFound;
      }
      if "name" !in body || !HasContent(body["name"]) {
        return BadRequest;
      }
      var name := body["name"];
      var clash := FindAmenityClash(amenities, name, amenityId);
      if clash {
        return Conflict;
      }
      var a := amenities.entries[amenityId];
      amenities := amenities.Put(amenityId, a.(name := name, updatedAt := now));
      out := Ok;
    }

    /** `delete_amenity`. */
    method DeleteAmenity(amenityId: string) returns (out: Outcome)
      requires Valid()
      modifies this`amenities
      ensures Valid()
      ensures amenityId !in old(amenities.entries) ==> out == NotFound && amenities == old(amenities)
      ensures amenityId in old(amenities.entries) ==> out == NoContent && amenities == old(amenities).Remove(amenityId)
    {
      if amenityId !in amenities.entries {
        return NotFound;
      }
      amenities := amenities.Remove(amenityId);
      out := NoContent;
    }

    // --- reviews ---

    /**
     * `update_review`: writes the two ids unchecked, then checks the rating
     * only for the range 1..5. A rating out of range, or one that is not a
     * number, stops the update after the id writes, which stay, and before
     * `updated_at` is refreshed.
     */
    method UpdateReview(reviewId: string, body: map<string, Value>, now: Timestamp) returns (out: Outcome)
      requires Valid()
      modifies this`reviews
      ensures Valid()
      ensures reviewId !in old(reviews.entries) ==> out == NotFound && reviews == old(reviews)
      ensures reviewId in old(reviews.entries) ==>
        var partial := Retargeted(old(reviews.entries[reviewId]), body);
        var rating := if "rating" in body then AsNumber(body["rating"]) else Some(1.0);
        && reviews.keys == old(reviews.keys)
        && (rating.None? ==> out == ServerError && reviews.entries == old(reviews.entries)[reviewId := partial])
        && (rating.Some? && !(1.0 <= rating.value <= 5.0) ==>
              out == Rejected && reviews.entries == old(reviews.entries)[reviewId := partial])
        && (rating.Some? && 1.0 <= rating.value <= 5.0 ==>
              out == Ok && reviews.entries == old(reviews.entries)[reviewId := partial.(
                rating := if "rating" in body then body["rating"] else partial.rating,
                feedback := if "feedback" in body then body["feedback"] else partial.feedback,
                updatedAt := now)])
    {
      if reviewId !in reviews.entries {
        return NotFound;
      }
      var r := reviews.entries[reviewId];
      if "commentor_user_id" in body {
        r := r.(commentorUserId := body["commentor_user_id"]);
      }
      if "place_id" in body {
        r := r.(placeId := body["place_id"]);
      }
      if "rating" in body {
        var rating := AsNumber(body["rating"]);
        if rating.None? {
          reviews := reviews.Put(reviewId, r);
          return ServerError;
        }
        if !(1.0 <= rating.value <= 5.0) {
          reviews := reviews.Put(reviewId, r);
          return Rejected;
        }
        r := r.(rating := body["rating"]);
      }
      if "feedback" in body {
        r := r.(feedback := body["feedback"]);
      }
      r := r.(updatedAt := now);
      reviews := reviews.Put(reviewId, r);
      out := Ok;
    }

    /** `delete_review`. */
    method DeleteReview(reviewId: string) returns (out: Outcome)
      requires Valid()
      modifies this`reviews
      ensures Valid()
      ensures reviewId !in old(reviews.entries) ==> out == NotFound && reviews == old(reviews)
      ensures reviewId in old(reviews.entries) ==> out == NoContent && reviews == old(reviews).Remove(reviewId)
    {
      if reviewId !in reviews.entries {
        return NotFound;
      }
      reviews := reviews.Remove(reviewId);
      out := NoContent;
    }

    /**
     * `create_review`: checks the body, the place and the author itself, then
     * builds a `Review`, whose setters can then refuse only the rating.
     * `created` and `updated` are the constructor's two clock readings.
     */
    method CreateReview(placeId: string, body: map<string, Value>, id: string, created: Timestamp, updated: Timestamp)
      returns (out: Outcome)
      requires Valid() && id !in reviews.entries
      modifies this`reviews
      ensures Valid()
      ensures "commentor_user_id" !in body || "rating" !in body || "feedback" !in body ==> out == BadRequest
      ensures "commentor_user_id" in body && "rating" in body && "feedback" in body ==>
        var author, rating, feedback := body["commentor_user_id"], body["rating"], body["feedback"];
        && (!feedback.Str? ==> out == ServerError)
        && (feedback.Str? && !HasContent(feedback.s) ==> out == BadRequest)
        && (feedback.Str? && HasContent(feedback.s) ==>
              && (placeId !in placeIds ==> out == NotFound)
              && (placeId in placeIds && author.StrList? ==> out == ServerError)
              && (placeId in placeIds && !author.StrList? && !(author.Str? && author.s in users.entries) ==> out == NotFound)
              && (placeId in placeIds && author.Str? && author.s in users.entries ==>
                    out == if ReviewModel.IsValidRating(rating) then Created else Rejected))
        && (out == Created ==> reviews == old(reviews).Put(id,
              ReviewRow(id, author, Str(placeId), rating, feedback, created, updated)))
      ensures out in {Created, BadRequest, NotFound, Rejected, ServerError}
      ensures out != Created ==> reviews == old(reviews)
    {
      if "commentor_user_id" !in body || "rating" !in body || "feedback" !in body {
        return BadRequest;
      }
      var author, rating, feedback := body["commentor_user_id"], body["rating"], body["feedback"];
      if !feedback.Str? {
        return ServerError;
      }
      if !HasContent(feedback.s) {
        return BadRequest;
      }
      if placeId !in placeIds {
        return NotFound;
      }
      if author.StrList? {
        return ServerError;
      }
      if !(author.Str? && author.s in users.entries) {
        return NotFound;
      }
      out := AddReview(author.s, placeId, rating, feedback.s, id, created, updated);
    }

    /**
     * The `try` block of `create_review` and the store write after it, for an
     * author and a place already known to exist: only the rating can be refused.
     */
    method AddReview(author: string, placeId: string, rating: Value, feedback: string, id: string,
                     created: Timestamp, updated: Timestamp) returns (out: Outcome)
      requires Valid() && id !in reviews.entries
      requires author in users.entries && placeId in placeIds
      modifies this`reviews
      ensures Valid()
      ensures out == Created || out == Rejected
      ensures out == Created <==> ReviewModel.IsValidRating(rating)
      ensures out == Created ==> reviews == old(reviews).Put(id,
        ReviewRow(id, Str(author), Str(placeId), rating, Str(feedback), created, updated))
      ensures out != Created ==> reviews == old(reviews)
    {
      var known := ReviewModel.Known(users.entries.Keys, placeIds);
      var review := ReviewModel.NewReviewFrom(id, created, updated, author, placeId, rating, feedback, known);
      if review.None? {
        return Rejected;
      }
      var r := review.value;
      reviews := reviews.Put(r.id, ReviewRow(r.id, Str(r.commentorUserId), Str(r.placeId), Int(r.rating), Str(r.feedback), r.createdAt, r.updatedAt));
      out := Created;
    }

    /** `get_reviews_by_user`: None when the user is unknown, otherwise exactly that user's reviews in store order. */
    function ReviewsByUser(userId: string): (r: Option<seq<ReviewRow>>)
      reads this
      requires Valid()
      ensures r.None? <==> userId !in users.entries
      ensures r.Some? ==> forall x :: x in r.value <==> x in reviews.Values() && x.commentorUserId == Str(userId)
      ensures r.Some? ==> r.value == ReviewsWhere(reviews.Values(), ByUser, userId)
    {
      if userId !in users.entries then None
      else
        ReviewsWhereMembers(reviews.Values(), ByUser, userId);
        Some(ReviewsWhere(reviews.Values(), ByUser, userId))
    }

    /** `get_reviews_by_place`: None when the place is unknown, otherwise exactly its reviews in store order. */
    function ReviewsByPlace(placeId: string): (r: Option<seq<ReviewRow>>)
      reads this
      requires Valid()
      ensures r.None? <==> placeId !in placeIds
      ensures r.Some? ==> forall x :: x in r.value <==> x in reviews.Values() && x.placeId == Str(placeId)
      ensures r.Some? ==> r.value == ReviewsWhere(reviews.Values(), ByPlace, placeId)
    {
      if placeId !in placeIds then None
      else
        ReviewsWhereMembers(reviews.Values(), ByPlace, placeId);
        Some(ReviewsWhere(reviews.Values(), ByPlace, placeId))
    }
  }
}
