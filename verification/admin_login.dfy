/**
 * The admin login page (frontend/src/pages/AdminLogin.tsx): `handleLogin` sends the
 * credentials, stores the returned token and opens the dashboard, or reports an
 * error and leaves everything else as it was.
 */
module AdminLogin {
  import opened Browser

  /** The page's loading flag together with the browser state it acts on. */
  datatype LoginPage = LoginPage(storage: Storage, route: string, isLoading: bool)

  /** How `POST /admin/login` ended: a response with its status and the
      `access_token` of its body, or a request or body that could not be read. */
  datatype LoginReply = Responded(status: int, accessToken: string) | Fault {
    /** `response.ok` with a readable body. */
    predicate Succeeded() {
      Responded? && IsOk(status)
    }
  }

  /** The synchronous start of `handleLogin`: the button shows the loading state while
      the request is in flight. */
  function StartLogin(p: LoginPage): (q: LoginPage)
    ensures q.isLoading
    ensures q.storage == p.storage && q.route == p.route
  {
    p.(isLoading := true)
  }

  /** The asynchronous end of `handleLogin`. */
  datatype LoginDone = LoginDone(page: LoginPage, toast: Toast)

  /** On success the token of the reply is stored, exactly as received, and the
      dashboard opens; on any failure the stored token, if any, and the route are
      untouched and an error is reported. Either way loading ends. */
  function FinishLogin(p: LoginPage, reply: LoginReply): (r: LoginDone)
    ensures !r.page.isLoading
    ensures reply.Succeeded() ==>
      && r.page.storage == p.storage[TokenKey := reply.accessToken]
      && r.page.route == DashboardRoute
      && r.toast == SuccessToast
    ensures !reply.Succeeded() ==>
      && r.page.storage == p.storage && r.page.route == p.route
      && r.toast == ErrorToast
    ensures r.page.route == DashboardRoute ==> reply.Succeeded() || p.route == DashboardRoute
  {
    if reply.Succeeded() then
      LoginDone(LoginPage(p.storage[TokenKey := reply.accessToken], DashboardRoute, false), SuccessToast)
    else
      LoginDone(p.(isLoading := false), ErrorToast)
  }

  /** After a successful login the dashboard finds the received token, unless the
      server sent an empty one, which the dashboard treats as no token at all. */
  lemma LoginStoresTokenForDashboard(p: LoginPage, reply: LoginReply)
    requires reply.Succeeded()
    ensures reply.accessToken != "" ==>
      StoredToken(FinishLogin(p, reply).page.storage) == Wrappers.Some(reply.accessToken)
    ensures reply.accessToken == "" ==> StoredToken(FinishLogin(p, reply).page.storage).None?
  {
  }

  /** A failed login never changes what token the dashboard would find. */
  lemma FailedLoginKeepsToken(p: LoginPage, reply: LoginReply)
    requires !reply.Succeeded()
    ensures StoredToken(FinishLogin(StartLogin(p), reply).page.storage) == StoredToken(p.storage)
    ensures !FinishLogin(StartLogin(p), reply).page.isLoading
  {
  }
}
