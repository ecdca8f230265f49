/** The login page's decision: the store lookup by username and role, then the
    password, then the buyer's review status, in that order; the first failing check
    decides the message, and a successful login picks the landing path. */
module LoginGate {
  import opened Wrappers
  import opened Types
  import MockStore
  import Routes

  datatype LoginError =
    | InvalidCredentialsOrRole
    | InvalidPassword
    | UnderVerification
    | ApplicationRejected

  /** The message the form shows; each message names one error. */
  function ErrorMessage(e: LoginError): (m: string)
    ensures m == "Invalid credentials or role" <==> e == InvalidCredentialsOrRole
    ensures m == "Invalid password" <==> e == InvalidPassword
    ensures m == "Your account is still under verification by Admin." <==> e == UnderVerification
    ensures m == "Your account application has been rejected." <==> e == ApplicationRejected
  {
    match e
    case InvalidCredentialsOrRole => "Invalid credentials or role"
    case InvalidPassword => "Invalid password"
    case UnderVerification => "Your account is still under verification by Admin."
    case ApplicationRejected => "Your account application has been rejected."
  }

  /** Either the user is logged in and sent to `landing`, or the form shows an error. */
  datatype LoginOutcome = Admitted(user: User, landing: string) | Refused(error: LoginError)

  /** The checks on the user the store found (if any) against the password typed in.
      A stored user without a password never matches. */
  function Decide(found: Option<User>, password: string): (r: LoginOutcome)
    ensures found.None? ==> r == Refused(InvalidCredentialsOrRole)
    ensures found.Some? && found.value.password != Some(password) ==> r == Refused(InvalidPassword)
    ensures found.Some? && found.value.password == Some(password) && found.value.role == Buyer ==>
      && (found.value.status == Pending ==> r == Refused(UnderVerification))
      && (found.value.status == Rejected ==> r == Refused(ApplicationRejected))
    ensures r.Admitted? <==>
      found.Some? && found.value.password == Some(password) &&
      (found.value.role == Admin || found.value.status == Approved)
    ensures r.Admitted? ==> r.user == found.value && r.landing == Routes.HomePath(found.value.role)
  {
    match found
    case None => Refused(InvalidCredentialsOrRole)
    case Some(u) =>
      if u.password != Some(password) then Refused(InvalidPassword)
      else if u.role == Buyer && u.status == Pending then Refused(UnderVerification)
      else if u.role == Buyer && u.status == Rejected then Refused(ApplicationRejected)
      else
        assert u.role == Buyer ==> u.status.Approved?;
        Admitted(u, if u.role == Admin then Routes.AdminProductsPath else Routes.BuyerHomePath)
  }

  /** `handleSubmit`: look the user up in the store's user table, then decide. An admitted
      user is a stored account with that username, role and password, is an admin or
      an approved buyer, and lands on a page the router lets them see. */
  function HandleSubmit(users: seq<User>, username: string, role: UserRole, password: string): (r: LoginOutcome)
    ensures r.Admitted? ==>
      && r.user in users
      && r.user.username == username && r.user.role == role
      && r.user.password == Some(password)
      && (role == Admin || r.user.status == Approved)
      && Routes.Resolve(r.landing, Some(r.user)) == Routes.Render(Routes.HomePage(role))
    ensures r == Refused(InvalidCredentialsOrRole) <==>
      forall k :: 0 <= k < |users| ==> !(users[k].username == username && users[k].role == role)
  {
    var found := MockStore.FindAccount(users, username, role);
    var r := Decide(found, password);
    assert r.Admitted? ==> Routes.Resolve(r.landing, Some(r.user)) == Routes.Render(Routes.HomePage(role));
    r
  }
}
