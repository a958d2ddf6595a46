/**
 * The part of the browser the admin pages share: `localStorage`, the current route,
 * and the toast messages shown to the user.
 */
module Browser {
  import opened Wrappers

  /** `localStorage`: string keys to string values. */
  type Storage = map<string, string>

  /** The storage key under which the admin token is kept. */
  const TokenKey: string := "adminToken"

  const LoginRoute: string := "/admin"
  const DashboardRoute: string := "/admin/dashboard"

  /** `localStorage.getItem('adminToken')` as the pages test it with `if (!token)`:
      a missing key and an empty string both count as no token. */
  function StoredToken(storage: Storage): (t: Option<string>)
    ensures t.Some? <==> TokenKey in storage && storage[TokenKey] != ""
    ensures t.Some? ==> t.value == storage[TokenKey] && t.value != ""
  {
    if TokenKey in storage && storage[TokenKey] != "" then Some(storage[TokenKey]) else None
  }

  /** `response.ok`: the status of a `fetch` response is in the 2xx range. The pages'
      reply types all read `Responded(status, …)` for a response whose body, when the
      page reads it, could be read, and `Fault` for a request that failed or a body that
      could not be read. */
  predicate IsOk(status: int) {
    200 <= status <= 299
  }

  /** A toast shown to the user, if any. */
  datatype Toast = NoToast | SuccessToast | ErrorToast
}
