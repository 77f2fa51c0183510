/**
 * The rows the stores of app.py hold. A row is a plain dictionary in the
 * source; every row the modelled handlers touch has all of its keys.
 */
module Records {
  import opened Wrappers
  import opened Json

  /** A user row; rows made by `users_post` carry no password. */
  datatype UserRow = UserRow(
    id: string, firstName: string, lastName: string, email: string,
    password: Option<string>, createdAt: Timestamp, updatedAt: Timestamp)

  datatype CountryRow = CountryRow(id: string, name: string, code: string, createdAt: Timestamp, updatedAt: Timestamp)

  datatype CityRow = CityRow(id: string, name: string, countryId: string, createdAt: Timestamp, updatedAt: Timestamp)

  datatype AmenityRow = AmenityRow(id: string, name: string, createdAt: Timestamp, updatedAt: Timestamp)

  /** A review row: `update_review` writes whatever JSON value it is given, so each field is a `Value`. */
  datatype ReviewRow = ReviewRow(
    id: string, commentorUserId: Value, placeId: Value, rating: Value, feedback: Value,
    createdAt: Timestamp, updatedAt: Timestamp)
}
