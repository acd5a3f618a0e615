/**
 * The values the route loaders of Checkout.js and SingleRobotPur.js share:
 * the signed-in user held in the Redux store, the `details` record the
 * server returns, and what a loader hands to the router.
 */
module UserState {
  import opened JsValues

  /** The user object kept in the store (and, as JSON, under "user" in localStorage). */
  datatype User = User(name: Option<string>)

  /** The body of `GET details?email=...`; any field may be missing. */
  datatype UserRecord = UserRecord(
    first_name: Option<string>,
    last_name: Option<string>,
    address: Option<string>,
    middle_name: Option<string>,
    status: Option<string>)

  /** How an awaited `userFetch.get` ends: it throws, or it yields a body (None when the body is falsy). */
  datatype Fetch<T> = FetchThrew | Fetched(body: Option<T>)

  /** What a loader returns: a `redirect(path)` response, or the fetched body as it is. */
  datatype LoaderResult<T> = Redirect(path: string) | Data(body: Option<T>)

  /** The user-details request a loader sends, identified by the email it passes (`user.name`). */
  datatype DetailsRequest = DetailsRequest(email: Option<string>)
}
