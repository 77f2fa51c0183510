# hbnb stores and models, in Dafny

This project models the core of the hbnb REST API: the entity classes in
`models/` and the store handlers in `app.py` that create, update, delete and
filter users, countries, cities, amenities and reviews. It also models the
loader step `FileStorage.reorganise_data`, which re-keys the loaded rows by
their ids.

How the pieces map:

- **Entity classes.** Each entity class (`User`, `Country`, `City`, `Amenity`,
  `Place`, `Review`) is a Dafny `class` whose fields change only through
  validating setters. A setter either stores its value or refuses it, where
  the source raises `ValueError`. The keyword-argument loop of each
  `__init__` is a method (`NewUser`, `NewPlace`, …). It is proved against a
  fold over the arguments (`Construct`). Lemmas about that fold say when
  construction fails and which value ends up in each field.
- **Field checks.** The checks the setters run (`len(v.strip()) > 0` and
  `re.search("^…$", v)`) are functions in `Text`. Lemmas state in plain
  character terms which strings they accept. These include Python's `$`
  matching before one final newline, so `"Ada\n"` is a valid first name.
- **Stores.** The global dictionaries `user_data`, `country_data`,
  `city_data`, `amenity_data` and `review_data` are insertion-ordered
  dictionaries (`Dicts.Dict`). They are fields of one `App.Stores` object.
- **Handlers.** Each handler is a method that changes only the store it
  writes. It answers with an `Outcome` (`Ok`, `Created`, `NoContent`,
  `NotFound`, `BadRequest`, `Conflict`, `Rejected` for a caught `ValueError`,
  `ServerError` for an uncaught exception).
- **Scans.** The loops inside the handlers are methods in `Scans`, each
  proved against a function that says what it finds: the first or last
  country with a code, a name clash, the cities of a country. The list
  comprehensions that pick the reviews of a user or a place are the
  function `Scans.ReviewsWhere`, with lemmas for membership and order.

Behaviour worth noting:

- `users_post` and `countries_post` answer 200, not 201.
- `cities_delete` answers 200, not 204.
- `users_post` neither stores nor returns the password.
- `users_put` does not touch `updated_at`.
- `update_review` checks only that the rating lies in 1..5, so a rating of
  2.5 is stored.

## Model

| member | source | states |
|---|---|---|
| UserModel.User.constructor | models/user.py:18-27 | a new user has the given id, one clock reading for both timestamps, and four empty fields |
| UserModel.User.SetFirstName | models/user.py:70-79 | the first name is stored exactly when it is not blank and matches `^[a-zA-Z]+$`; otherwise it stays as it was |
| UserModel.User.SetLastName | models/user.py:87-96 | the same rule for the last name |
| UserModel.User.SetEmail | models/user.py:104-112 | the email is stored exactly when it is not blank and matches `^[a-zA-Z0-9+_.-]+@[a-zA-Z0-9.-]+$` |
| UserModel.User.SetPassword | models/user.py:120-126 | the password is stored exactly when it has at least 6 characters |
| UserModel.User.SetAttr | models/user.py:31-33 | `setattr` runs the setter of the named field only; success and new fields agree with `Assign` |
| UserModel.NewUser | models/user.py:18-34 | the constructor fails exactly when the argument fold fails; otherwise the user holds the fold's fields, a fresh object with the given id and timestamps |
| UserModel.ConstructFails | models/user.py:30-33 | construction fails exactly when some argument for one of the four fields carries a value its setter refuses |
| UserModel.ConstructTakesLast | models/user.py:30-33 | each field holds the last value given for it, or stays empty; other keys are ignored |
| UserModel.ConstructFromAll | app.py:176 | the four-argument call succeeds exactly when all four setters accept, and stores the values as given |
| UserModel.NewUserFrom | app.py:176 | `User(first_name=…, last_name=…, email=…, password=…)` yields a user exactly when all four checks pass, holding those four values |
| Text.PersonNameIff | models/user.py:75 | a first or last name is accepted exactly when it is one or more ASCII letters, optionally followed by one newline |
| Text.PersonNameTakesFinalNewline | models/user.py:75 | `"Ada\n"` is accepted, because `$` matches before a final newline |
| Text.PersonNameRefusesHyphenAndSpace | models/user.py:75 | `"Obi-wan"` and `"Ada Lovelace"` are refused: a hyphen or a space is not a letter |
| Text.EmailIff | models/user.py:108 | for an email the blank check adds nothing to the pattern |
| Text.MatchesEmailIsSearch | models/user.py:108 | the split at the first `@` agrees with the regular expression's own reading: some split into an allowed local part and domain |
| Text.MatchesRunIsSearch | models/user.py:75 | a `^[C]+$` search succeeds exactly when the string, less one optional final newline, is a non-empty run of class C |
| Text.EmailAccepted | models/user.py:108 | `"ada@x.com"` is accepted |
| Text.EmailRefused | models/user.py:108 | `"ada@"`, `"@x.com"` and `"ada"` are refused |
| Text.HasContentIff | models/user.py:75 | `len(v.strip()) > 0` holds exactly when some character of v is not white space |
| Text.HasContentAt | models/amenity.py:29 | a string with a non-space character is not blank after `strip()` |
| Text.TrimStartSpec | models/user.py:75 | `lstrip` removes exactly a prefix of white space and leaves a string that does not start with white space |
| Text.TrimEndSpec | models/user.py:75 | `rstrip` removes exactly a suffix of white space and leaves a string that does not end with white space |
| Text.Chomp | models/user.py:75 | dropping the one newline that `$` may skip leaves the string or removes a single final `"\n"` |
| Text.IndexOf | models/user.py:108 | the position of the first `@` lies within the string |
| Text.IndexOfSpec | models/user.py:108 | the position found holds the character and no earlier one does, or no position holds it |
| Text.NameIff | models/country.py:73 | a country, city or place name is accepted exactly when it is letters and spaces with at least one letter |
| Text.NameRefusesBlank | models/country.py:73 | `"   "` matches the pattern but is refused by the blank check |
| Text.CountryCodeIff | models/country.py:89 | a code is accepted exactly when it is two upper-case ASCII letters, optionally followed by one newline |
| Text.CountryCodeExamples | models/country.py:89 | `"US"` is accepted; `"us"`, `"USA"` and `"U1"` are refused |
| CountryModel.Country.constructor | models/country.py:18-29 | a new country has the given id and timestamps and empty name and code |
| CountryModel.Country.SetName | models/country.py:69-77 | the name is stored exactly when it is a valid name |
| CountryModel.Country.SetCode | models/country.py:85-93 | the code is stored exactly when it is a valid code |
| CountryModel.Country.SetAttr | models/country.py:32-34 | runs the setter of the named field only |
| CountryModel.NewCountry | models/country.py:18-35 | the constructor fails exactly when the argument fold fails; otherwise it holds the fold's fields |
| CountryModel.ConstructFails | models/country.py:32-34 | construction fails exactly when some `name` or `code` argument is refused |
| CountryModel.ConstructTakesLast | models/country.py:32-34 | each field holds the last value given for it |
| CountryModel.ConstructFromBoth | app.py:277 | `Country(name=…, code=…)` succeeds exactly when both are valid and stores both |
| CountryModel.NewCountryFrom | app.py:277 | the handler's call yields a country exactly when name and code are valid, holding those values |
| CityModel.City.constructor | models/city.py:19-30 | a new city has the given id and timestamps and empty name and country id |
| CityModel.City.SetName | models/city.py:70-78 | the name is stored exactly when it is a valid name |
| CityModel.City.SetCountryId | models/city.py:86-93 | the country id is stored exactly when the country store has that key |
| CityModel.City.SetAttr | models/city.py:33-35 | runs the setter of the named field only |
| CityModel.NewCity | models/city.py:19-36 | the constructor fails exactly when the argument fold fails; otherwise it holds the fold's fields |
| CityModel.ConstructFails | models/city.py:33-35 | construction fails exactly when a name is invalid or a country id is unknown |
| CityModel.ConstructTakesLast | models/city.py:33-35 | each field holds the last value given for it |
| CityModel.ConstructFromBoth | app.py:475 | `City(name=…, country_id=…)` succeeds exactly when the name is valid and the country exists |
| CityModel.NewCityFrom | app.py:475 | the handler's call yields a city exactly when the name is valid and the country exists, holding those values |
| AmenityModel.Amenity.constructor | models/amenity.py:9-15 | a new amenity has the given id, two clock readings and an empty name |
| AmenityModel.Amenity.SetName | models/amenity.py:28-32 | the name is stored exactly when it is a string with a non-space character |
| AmenityModel.NewAmenity | models/amenity.py:9-21 | the constructor fails exactly when a `name` argument is refused; otherwise it holds the fold's name |
| AmenityModel.ConstructFails | models/amenity.py:18-21 | construction fails exactly when some `name` argument is refused |
| AmenityModel.ConstructTakesLast | models/amenity.py:18-21 | the name is the last `name` argument given |
| AmenityModel.NamelessIsEmpty | models/amenity.py:13-21 | without a `name` argument the amenity keeps the empty name the setter would refuse |
| ReviewModel.Review.constructor | models/review.py:15-24 | a new review has the given id, two clock readings, empty ids and feedback, and rating 0 |
| ReviewModel.Review.SetFeedback | models/review.py:61-65 | feedback is stored exactly when it is a string, blank or not |
| ReviewModel.Review.SetRating | models/review.py:72-76 | the rating is stored exactly when it is an integer from 1 to 5 |
| ReviewModel.Review.SetCommentorUserId | models/review.py:83-87 | the author is stored exactly when it is a string naming a known user |
| ReviewModel.Review.SetPlaceId | models/review.py:94-98 | the place is stored exactly when it is a string naming a known place |
| ReviewModel.Review.SetAttr | models/review.py:26-29 | runs the setter of the named field only |
| ReviewModel.NewReview | models/review.py:15-32 | the constructor fails exactly when the argument fold fails; otherwise it holds the fold's fields |
| ReviewModel.ConstructFails | models/review.py:26-29 | construction fails exactly when some argument for the four fields is refused |
| ReviewModel.ConstructTakesLast | models/review.py:26-29 | each field holds the unwrapped last value given for it |
| ReviewModel.ConstructFromAll | app.py:912-917 | the four-argument call succeeds exactly when all four setters accept, and stores the values |
| ReviewModel.ConstructKeepsSound | models/review.py:15-29 | every field of a constructed review is its default or a value its setter accepts |
| ReviewModel.NewReviewFrom | app.py:912-917 | for a known author and place, the call yields a review exactly when the rating is an integer 1..5 |
| PlaceModel.Place.constructor | models/place.py:11-26 | a new place has the given id and two clock readings, and every field at its default |
| PlaceModel.Place.SetName | models/place.py:40-44 | the name is stored exactly when it is a string and a valid name |
| PlaceModel.Place.SetDescription | models/place.py:51-55 | the description is stored exactly when it is a string |
| PlaceModel.Place.SetAddress | models/place.py:62-66 | the address is stored exactly when it is a string |
| PlaceModel.Place.SetLatitude | models/place.py:73-77 | the latitude is stored exactly when it is a number in [-90, 90] |
| PlaceModel.Place.SetLongitude | models/place.py:84-88 | the longitude is stored exactly when it is a number in [-180, 180] |
| PlaceModel.Place.SetNumberOfRooms | models/place.py:95-99 | the room count is stored exactly when it is a positive integer |
| PlaceModel.Place.SetBathrooms | models/place.py:106-110 | the bathroom count is stored exactly when it is a positive integer |
| PlaceModel.Place.SetPricePerNight | models/place.py:117-121 | the price is stored exactly when it is a non-negative number |
| PlaceModel.Place.SetMaxGuests | models/place.py:128-132 | the guest count is stored exactly when it is a positive integer |
| PlaceModel.Place.SetAttr | models/place.py:28-32 | runs the setter of the named attribute only; `city_id`, `host_user_id` and `amenities` are stored without a check |
| PlaceModel.NewPlace | models/place.py:11-32 | the constructor fails exactly when the argument fold fails; otherwise it holds the fold's fields |
| PlaceModel.AttrOf | models/place.py:29-31 | a key names an attribute exactly when it is one of the twelve allowed keys |
| PlaceModel.AttrOfKey | models/place.py:29-31 | each attribute's key leads back to that attribute |
| PlaceModel.KeyOfInjective | models/place.py:29-31 | the twelve keys are distinct |
| PlaceModel.Assign | models/place.py:28-32 | an assignment succeeds exactly when the attribute's setter accepts the value |
| PlaceModel.AssignGet | models/place.py:28-32 | an accepted assignment stores exactly the value in that attribute and changes no other |
| PlaceModel.ConstructFails | models/place.py:28-32 | construction fails exactly when some argument for an allowed key is refused |
| PlaceModel.ConstructTakesLast | models/place.py:28-32 | each attribute holds the last value given for it, or its starting value |
| PlaceModel.HostKeptWithoutHostUserId | models/place.py:22-32 | without a `host_user_id` argument the host keeps its starting value |
| PlaceModel.ConstructKeepsSound | models/place.py:11-32 | every attribute of a constructed place is its default or a value its setter accepts |
| PlaceModel.DefaultCountsRefused | models/place.py:20-23 | the default 0 of the three counts is a value their own setters refuse |
| Scans.FirstCodeIndex | app.py:459-463 | the index found holds the code and no earlier row does, or no row holds it |
| Scans.LastCodeIndex | app.py:349-351 | the index found holds the code and no later row does, or no row holds it |
| Scans.FirstIsLastWhenUnique | app.py:382-384 | when only one country has the code, the first-match and last-match scans agree |
| Scans.FindFirstCode | app.py:459-463 | the loop with `break` finds the first country with the code |
| Scans.FindLastCode | app.py:349-351 | the loop without `break` finds the last country with the code |
| Scans.FindCityClash | app.py:469-471 | the loop reports a clash exactly when a city in that country has that name, skipping the excepted id |
| Scans.FindAmenityClash | app.py:593-595 | the loop reports a clash exactly when another key holds an amenity with that name |
| Scans.CitiesOf | app.py:386-394 | the filter keeps at most as many rows as it is given |
| Scans.CitiesOfMembers | app.py:386-394 | a city is listed exactly when it is in the store with the wanted country id |
| Scans.CitiesOfAppend | app.py:386-394 | filtering distributes over concatenation, so store order is kept |
| Scans.CollectCities | app.py:386-394 | the loop collects exactly the filtered cities, in store order |
| Scans.ReviewsWhere | app.py:776 | the filter keeps at most as many rows as it is given |
| Scans.ReviewsWhereMembers | app.py:776 | a review is listed exactly when it is in the store and its author (or place) is the id |
| Scans.ReviewsWhereAppend | app.py:803 | filtering distributes over concatenation, so store order is kept |
| App.FirstCountryId | app.py:459-466 | the id of the first country with the code, or None when no country has it or that first country's id is empty (the scan breaks at the first match) |
| App.WantedCountryId | app.py:380-384 | the id of the last country with the code, since the scan does not break; "" when no country has it |
| App.RenameKeyedById | app.py:358-363 | when every country is keyed by its id, writing the renamed row back under its id is a single in-place update |
| App.Stores.constructor | app.py:11 | the stores start as the dictionaries the data package loads |
| App.Stores.UsersPost | app.py:156-201 | missing email or password is a 400; missing names a 500; success exactly when all four checks pass, adding the row without password; with all four fields present any failed check is the 200 text reply of the `ValueError`; nothing else changes |
| App.Stores.AddUser | app.py:175-189 | success exactly when the `User` setters accept, and the new row holds the given values |
| App.Stores.UsersPut | app.py:203-240 | an unknown id is a 400; otherwise only that user's two names change, to the body's values unchecked |
| App.Stores.DeleteUser | app.py:243-254 | an unknown id is a 404; otherwise the user is removed and nothing else changes |
| App.Stores.CountriesPost | app.py:259-300 | missing fields are a 400; success exactly when name and code are valid, adding the row; with both present a failed check is the 200 text reply of the `ValueError` |
| App.Stores.AddCountry | app.py:276-289 | success exactly when the `Country` setters accept, and the new row holds the given values |
| App.Stores.CountriesPut | app.py:335-374 | an unknown code is a 400; otherwise the last country with the code is renamed and written back under its id |
| App.Stores.CountryCities | app.py:376-396 | lists exactly the cities of the last country with the code, in store order, or those with country id "" |
| App.Stores.CitiesPost | app.py:446-494 | missing fields or an unknown code are a 400; a name taken in that country a 409; created exactly when free, valid and the country exists; a free name that fails a check is the 200 text reply of the `ValueError` |
| App.Stores.CitiesPut | app.py:497-532 | unknown city 404; no `country_code` 500, or 400 when there is no country at all (the code is read only inside the loop over the countries); unknown code 400, missing name 500, taken name 409; otherwise only that city's name, country and `updated_at` change |
| App.Stores.DeleteCity | app.py:535-542 | an unknown id is a 404; otherwise the city is removed |
| App.Stores.UpdateAmenity | app.py:580-600 | unknown id 404, blank name 400, name held by another key 409; otherwise only that amenity's name and `updated_at` change |
| App.Stores.DeleteAmenity | app.py:603-609 | an unknown id is a 404; otherwise the amenity is removed |
| App.Stores.UpdateReview | app.py:846-879 | unknown id 404; the ids are written unchecked; a non-number rating is a 500 and one outside 1..5 a 400, both keeping the id writes; otherwise rating, feedback and `updated_at` change |
| App.Stores.DeleteReview | app.py:882-889 | an unknown id is a 404; otherwise the review is removed |
| App.Stores.CreateReview | app.py:891-932 | missing keys or blank feedback 400, non-string feedback 500, unknown place or author 404, a list author 500; created exactly when the rating is an integer 1..5 |
| App.Stores.AddReview | app.py:910-930 | for a known author and place, success exactly when the rating is valid, adding the row |
| App.Stores.ReviewsByUser | app.py:768-791 | none for an unknown user; otherwise exactly the reviews with that author, in store order |
| App.Stores.ReviewsByPlace | app.py:794-819 | none for an unknown place; otherwise exactly the reviews of that place, in store order |
| FileStorage.Index | part-01/web/data/file_storage.py:41-42 | re-keying rows yields a well-formed dictionary |
| FileStorage.IndexKeys | part-01/web/data/file_storage.py:41-42 | the output keys are exactly the row ids |
| FileStorage.IndexLastWins | part-01/web/data/file_storage.py:41-42 | for a duplicated id the last row with it is kept |
| FileStorage.IndexKeyedById | part-01/web/data/file_storage.py:41-42 | each row sits under its own id |
| FileStorage.FlattenAppend | part-01/web/data/file_storage.py:38-41 | the rows of two runs of groups are the rows of each, in order |
| FileStorage.IndexSnoc | part-01/web/data/file_storage.py:42 | one more row writes its id last |
| FileStorage.IndexGroup | part-01/web/data/file_storage.py:41-42 | the inner loop fails exactly when a row lacks `id`, and otherwise extends the index |
| FileStorage.Reorganise | part-01/web/data/file_storage.py:30-44 | the method returns exactly the re-keyed rows of all groups, or fails on a row without `id` |

## Left out

- HTTP plumbing is not modelled: request parsing, the "Not a JSON" checks, `jsonify` and the response bodies. Each handler answers with an `Outcome` instead of a status code and body.
- `Rejected` stands for the caught `ValueError`. The post handlers turn it into a 200 text reply and `update_review` into a 400.
- `save()` and every file read or write are not modelled. This covers the `save` calls in the `User`, `Country`, `City` and `Review` constructors and `FileStorage.load_from_json_file`.
- `uuid4()` ids and `datetime.now()` readings are parameters. A new id is required to be absent from its store.
- Python floats are modelled as `real`. A JSON `true`/`false` as an integer is not modelled, and neither is the key equality of `1` and `1.0`.
- Request bodies of the user, country, city and amenity handlers are modelled as maps of strings, so a non-string value there is not modelled. In most checks of `users_post`, `countries_post`, `cities_post` and `update_amenity` such a value would raise. There are two exceptions. In `cities_post` a non-string `country_code` only fails the comparison with each code and leads to the 400. In `users_post` a list or dict `password` with six or more items passes the length check, so the user is created. `users_put`, `countries_put` and `cities_put` would store a non-string value unchecked. In `cities_put` a non-string `country_code` matches no country and leads to the 400.
- Every loaded row is assumed to carry all of its keys: rows are typed records. The source copes with incomplete rows in places, and that behaviour is not modelled. `get_reviews_by_user` and `get_reviews_by_place` skip a review only when it has `id` and the compared key (`commentor_user_id` or `place_id`) but lacks another key. The comprehension that compares runs outside the `try`, and the `except` reads `id` again, so a review missing either of those two keys raises. `users_put` writes the store and then raises while building its reply. The scans of `countries_put`, `countries_specific_cities_get`, `cities_post`, `cities_put` and `update_amenity` would raise on a row without the key they compare.
- In `reorganise_data`, an `id` that cannot be hashed is not modelled.
- The place store is modelled as a set of ids. The handlers modelled here only ask whether a place exists.
- `create_place` and `update_place` are not modelled. Their store writes go beyond the entity setters modelled in `PlaceModel`.
- The GET handlers that only reshape rows are not modelled. Their reshaping is JSON formatting.
- The example routes are not modelled.
- `data/__init__.py` is not part of this model.
- `PlaceModel.Place.SetName`: a non-string name raises `AttributeError` in the source rather than `ValueError`. Both abort construction, and the model does not tell them apart.
- `App.Stores.CountriesPut`: the model writes the renamed row under its key and then under its id. It states the in-place result only when every country is keyed by its id. The aliasing of the two dictionary entries when the key and the id differ is not modelled.
- `App.Stores.UsersPost`: the model does not separate the 400 for a missing email from the 400 for a missing password.
