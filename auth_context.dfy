/** The session held by the authentication context (src/contexts/AuthContext.tsx):
    the current user, the copies kept in browser storage, and the login,
    signup, logout and update operations with their demo fallbacks. */
module Auth {
  import opened Js
  import opened Types

  /** A login or signup response body: the user is read as
      `data.data?.user || data.user || data` and the token as
      `data.data?.token || data.token`. */
  datatype AuthBody = AuthBody(user: Envelope<User>, dataToken: Option<string>, token: Option<string>)

  /** What the remote login or signup call did: answered with a body, refused
      (a non-2xx status), or could not be reached. The last two both fall
      through to the demo path. */
  datatype ApiResponse = Answered(body: AuthBody) | Refused | Unreachable

  /** The token a response carries, if any: the first truthy of the two places. */
  function DecodeToken(body: AuthBody): (r: Option<string>)
    ensures r.Some? ==> r.value != ""
    ensures r.None? <==> !TruthyString(body.dataToken) && !TruthyString(body.token)
    ensures TruthyString(body.dataToken) ==> r == body.dataToken
    ensures !TruthyString(body.dataToken) && TruthyString(body.token) ==> r == body.token
  {
    if TruthyString(body.dataToken) then body.dataToken
    else if TruthyString(body.token) then body.token
    else None
  }

  /** The demo credentials: customer/password as a customer, admin/password
      as an admin, or demo@example.com with any password as a customer. */
  function IsValidDemo(email: string, password: string, role: UserRole): (b: bool)
    ensures b ==> (role == ADMIN <==> email == "admin")
    ensures b && email != "demo@example.com" ==> password == "password"
  {
    || (email == "customer" && password == "password" && role == USER)
    || (email == "admin" && password == "password" && role == ADMIN)
    || (email == "demo@example.com" && role == USER)
  }

  /** The user a successful demo login creates. */
  function DemoUser(email: string, role: UserRole): (u: User)
    ensures u.role == role
    ensures role == ADMIN ==> u.id == "admin-1" && u.balance == 0.0
    ensures role == USER ==> u.id == "user-1" && u.balance == 50000.0
    ensures u.email == email <==> (email == "demo@example.com" ||
                                  (role == ADMIN && email == "admin@example.com") ||
                                  (role == USER && email == "customer@example.com"))
    ensures u.riskAppetite == MODERATE
  {
    User(if role == ADMIN then "admin-1" else "user-1",
         if role == ADMIN then "Admin" else "Customer",
         Some(if role == ADMIN then "User" else "Demo"),
         if email == "demo@example.com" then email
         else if role == ADMIN then "admin@example.com" else "customer@example.com",
         role, MODERATE, if role == ADMIN then 0.0 else 50000.0, None, None)
  }

  /** The demo logins that succeed are exactly three: customer/password as a
      customer and admin/password as an admin are accepted, the demo address
      is accepted as a customer with any password, and nothing else is. */
  lemma DemoLoginCases(email: string, password: string, role: UserRole)
    ensures IsValidDemo("customer", "password", USER) && IsValidDemo("admin", "password", ADMIN)
    ensures IsValidDemo("demo@example.com", password, USER)
    ensures !IsValidDemo("demo@example.com", password, ADMIN)
    ensures IsValidDemo(email, password, role) && role == ADMIN ==> email == "admin" && password == "password"
    ensures IsValidDemo(email, password, role) && role == USER ==> email == "customer" || email == "demo@example.com"
    ensures IsValidDemo(email, password, role) <==>
              (email == "customer" && password == "password" && role == USER) ||
              (email == "admin" && password == "password" && role == ADMIN) ||
              (email == "demo@example.com" && role == USER)
  {
  }

  /** The user a demo signup creates: always a customer with 50000 to spend
      and the chosen risk appetite. */
  function SignupUser(idSuffix: string, firstName: string, lastName: string, email: string, risk: RiskLevel): (u: User)
    ensures u.role == USER && u.balance == 50000.0 && u.riskAppetite == risk
    ensures u.firstName == firstName && u.lastName == Some(lastName) && u.email == email
  {
    User("user-" + idSuffix, firstName, Some(lastName), email, USER, risk, 50000.0, None, None)
  }

  /** A `Partial<User>`: the fields an update supplies. */
  datatype UserPatch = UserPatch(
    id: Option<string>,
    firstName: Option<string>,
    lastName: Option<Option<string>>,
    email: Option<string>,
    role: Option<UserRole>,
    riskAppetite: Option<RiskLevel>,
    balance: Option<real>,
    createdAt: Option<Option<string>>,
    updatedAt: Option<Option<string>>)

  const EmptyPatch := UserPatch(None, None, None, None, None, None, None, None, None)

  function BalancePatch(b: real): UserPatch {
    EmptyPatch.(balance := Some(b))
  }

  /** `{ ...u, ...p }`: each field the patch supplies wins, and every field
      it leaves out keeps the user's value. */
  function Merge(u: User, p: UserPatch): (r: User)
    ensures p == EmptyPatch ==> r == u
    ensures p.(balance := None) == EmptyPatch ==> r == u.(balance := r.balance)
    ensures (p.id.Some? ==> r.id == p.id.value) && (p.id.None? ==> r.id == u.id)
    ensures (p.firstName.Some? ==> r.firstName == p.firstName.value) && (p.firstName.None? ==> r.firstName == u.firstName)
    ensures (p.lastName.Some? ==> r.lastName == p.lastName.value) && (p.lastName.None? ==> r.lastName == u.lastName)
    ensures (p.email.Some? ==> r.email == p.email.value) && (p.email.None? ==> r.email == u.email)
    ensures (p.role.Some? ==> r.role == p.role.value) && (p.role.None? ==> r.role == u.role)
    ensures (p.riskAppetite.Some? ==> r.riskAppetite == p.riskAppetite.value) &&
            (p.riskAppetite.None? ==> r.riskAppetite == u.riskAppetite)
    ensures (p.balance.Some? ==> r.balance == p.balance.value) && (p.balance.None? ==> r.balance == u.balance)
    ensures (p.createdAt.Some? ==> r.createdAt == p.createdAt.value) && (p.createdAt.None? ==> r.createdAt == u.createdAt)
    ensures (p.updatedAt.Some? ==> r.updatedAt == p.updatedAt.value) && (p.updatedAt.None? ==> r.updatedAt == u.updatedAt)
  {
    User(p.id.GetOr(u.id), p.firstName.GetOr(u.firstName), p.lastName.GetOr(u.lastName),
         p.email.GetOr(u.email), p.role.GetOr(u.role), p.riskAppetite.GetOr(u.riskAppetite),
         p.balance.GetOr(u.balance), p.createdAt.GetOr(u.createdAt), p.updatedAt.GetOr(u.updatedAt))
  }

  /** Patches compose: a second patch overrides the first field by field. */
  function Combine(p: UserPatch, q: UserPatch): UserPatch {
    UserPatch(if q.id.Some? then q.id else p.id,
              if q.firstName.Some? then q.firstName else p.firstName,
              if q.lastName.Some? then q.lastName else p.lastName,
              if q.email.Some? then q.email else p.email,
              if q.role.Some? then q.role else p.role,
              if q.riskAppetite.Some? then q.riskAppetite else p.riskAppetite,
              if q.balance.Some? then q.balance else p.balance,
              if q.createdAt.Some? then q.createdAt else p.createdAt,
              if q.updatedAt.Some? then q.updatedAt else p.updatedAt)
  }

  /** Merging changes nothing without a patch, changes only the balance under
      a balance patch, is idempotent, and applying two patches in turn is
      applying their combination. */
  lemma MergeLaws(u: User, p: UserPatch, q: UserPatch, b: real)
    ensures Merge(u, EmptyPatch) == u
    ensures Merge(u, BalancePatch(b)) == u.(balance := b)
    ensures Merge(Merge(u, p), p) == Merge(u, p)
    ensures Merge(Merge(u, p), q) == Merge(u, Combine(p, q))
  {
  }

  class Session {
    var user: Option<User>
    var storedUser: Option<User>
    var storedToken: Option<string>
    var isLoading: bool

    /** The stored copy always mirrors the in-memory user. */
    predicate Valid()
      reads this
    {
      storedUser == user
    }

    function IsAuthenticated(): (b: bool)
      reads this
      ensures b <==> user.Some?
    {
      user.Some?
    }

    /** The provider after its start-up effect: a stored user is restored, and
        loading is over. */
    constructor Restore(stored: Option<User>, token: Option<string>)
      ensures Valid()
      ensures user == stored && storedToken == token && !isLoading
    {
      user := stored;
      storedUser := stored;
      storedToken := token;
      isLoading := false;
    }

    /** Log in: an answered request installs the decoded user and, when one is
        present, the token; otherwise the demo credentials decide. Invalid demo
        credentials raise (`ok` is false) and leave the session as it was. */
    method Login(email: string, password: string, role: UserRole, response: ApiResponse) returns (ok: bool)
      requires Valid()
      modifies this
      ensures Valid() && !isLoading
      ensures response.Answered? ==> (ok && user == Some(Unwrap(response.body.user)) &&
              storedToken == (if DecodeToken(response.body).Some? then DecodeToken(response.body) else old(storedToken)))
      ensures !response.Answered? ==> ok == IsValidDemo(email, password, role) && storedToken == old(storedToken)
      ensures !response.Answered? && ok ==> user == Some(DemoUser(email, role))
      ensures !ok ==> user == old(user)
    {
      isLoading := true;
      if response.Answered? {
        var u := Unwrap(response.body.user);
        user := Some(u);
        storedUser := Some(u);
        var token := DecodeToken(response.body);
        if token.Some? {
          storedToken := token;
        }
        ok := true;
      } else if IsValidDemo(email, password, role) {
        var u := DemoUser(email, role);
        user := Some(u);
        storedUser := Some(u);
        ok := true;
      } else {
        ok := false;
      }
      isLoading := false;
    }

    /** Sign up: an answered request installs the decoded user and token;
        otherwise a fresh customer is created. Signup does not fail. */
    method Signup(firstName: string, lastName: string, email: string, password: string, risk: RiskLevel,
                  response: ApiResponse, idSuffix: string)
      requires Valid()
      modifies this
      ensures Valid() && !isLoading && user.Some?
      ensures response.Answered? ==> (user == Some(Unwrap(response.body.user)) &&
              storedToken == (if DecodeToken(response.body).Some? then DecodeToken(response.body) else old(storedToken)))
      ensures !response.Answered? ==> (user == Some(SignupUser(idSuffix, firstName, lastName, email, risk)) &&
              storedToken == old(storedToken))
    {
      isLoading := true;
      if response.Answered? {
        var u := Unwrap(response.body.user);
        user := Some(u);
        storedUser := Some(u);
        var token := DecodeToken(response.body);
        if token.Some? {
          storedToken := token;
        }
      } else {
        var u := SignupUser(idSuffix, firstName, lastName, email, risk);
        user := Some(u);
        storedUser := Some(u);
      }
      isLoading := false;
    }

    /** Log out: the user and both stored entries are cleared. */
    method Logout()
      requires Valid()
      modifies this
      ensures Valid() && user.None? && storedToken.None? && !IsAuthenticated()
      ensures isLoading == old(isLoading)
    {
      user := None;
      storedUser := None;
      storedToken := None;
    }

    /** Merge the supplied fields into the current user; without a user this
        does nothing. */
    method UpdateUser(patch: UserPatch)
      requires Valid()
      modifies this
      ensures Valid()
      ensures old(user).None? ==> user.None?
      ensures old(user).Some? ==> user == Some(Merge(old(user).value, patch))
      ensures storedToken == old(storedToken) && isLoading == old(isLoading)
    {
      if user.Some? {
        var u := Merge(user.value, patch);
        user := Some(u);
        storedUser := Some(u);
      }
    }
  }
}
