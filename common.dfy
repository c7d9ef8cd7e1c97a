/** Values shared by the session store and the views: optional values, the
    JavaScript falsiness rules the views lean on (`x || ""`, `x || null`),
    the authenticated identity and session, and the generated-user payload
    that the feed hands to the profile viewer. */
module Common {

  /** `null`/`undefined` versus a present value. */
  datatype Option<+T> = None | Some(value: T)

  /** `x || ""` on an optional string: null, undefined and "" all become "". */
  function OrEmpty(x: Option<string>): (r: string)
    ensures x.Some? ==> r == x.value
    ensures x.None? ==> r == ""
  {
    match x
    case Some(s) => s
    case None => ""
  }

  /** `x || null` on an optional string: the empty string is falsy, so it
      becomes null like a missing value. */
  function OrNull(x: Option<string>): (r: Option<string>)
    ensures r.Some? <==> x.Some? && x.value != ""
    ensures r.Some? ==> r == x
  {
    if x.Some? && x.value != "" then x else None
  }

  /** The feed's path: where a saved form and the profile page's
      "not found" screen lead. */
  const FeedPath := "/lista"

  /** `Ok` for a call that returned, `Err` for one that threw. */
  datatype Result<+T, +E> = Ok(value: T) | Err(error: E)

  /** An optional string is truthy in JavaScript when it is present and not
      empty. */
  predicate Present(x: Option<string>)
  {
    x.Some? && x.value != ""
  }

  /** The identity issued by the authentication service (only the parts
      this client reads). */
  datatype AuthUser = AuthUser(id: string, email: Option<string>)

  /** A session pairs an identity with the token the service manages. */
  datatype Session = Session(user: AuthUser, accessToken: string)

  /** A generated user as returned by the random-user service. */
  datatype FakeUser = FakeUser(
    uuid: string,        // login.uuid
    loginName: string,   // login.username
    first: string,       // name.first
    last: string,        // name.last
    email: string,
    pictureMedium: string,
    pictureLarge: string,
    city: string,        // location.city
    country: string      // location.country
  )
}
