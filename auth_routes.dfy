/** The `/auth` routes (app/api/auth.py): login with a cookie, signup with
    ordered checks and one insert into the users table, logout, and the
    OAuth2 `/token` endpoint. Templates and redirects are values; a hashing
    error that escapes the route is `Unhandled`. */
module AuthRoutes {
  import opened Common
  import opened Security

  datatype Cookie = Cookie(key: string, value: string, httpOnly: bool, maxAge: int, sameSite: string)

  datatype Response =
    | Template(name: string, error: string)
    | Redirect(url: string, status: nat, setCookie: Option<Cookie>, deleteCookie: Option<string>)
    | Unhandled

  const SeeOther := 303
  const LoginTemplate := "auth/login.html"
  const SignupTemplate := "auth/signup.html"
  const TokenCookie := "access_token"

  /** The claims of a login token: the user's name as subject. */
  function SubjectClaims(username: string): Claims {
    map["sub" := Text(username)]
  }

  /** The token `login` and `/token` issue, valid for `ExpireMinutes`. */
  function LoginToken(sign: Signer, username: string, now: int): string {
    CreateAccessToken(sign, SubjectClaims(username), Some(ExpireMinutes * 60), now)
  }

  /** `login(username, password)`: the token names the row found, with the
      name as stored. */
  function Login(users: seq<User>, same: Collation, queryRaises: bool, verify: Verifier, sign: Signer, now: int,
                 username: string, password: string): (r: Response)
    ensures AuthenticateUser(users, same, queryRaises, verify, username, password).None? ==>
              r == Template(LoginTemplate, "Invalid username or password")
    ensures AuthenticateUser(users, same, queryRaises, verify, username, password).Some? ==>
              var user := AuthenticateUser(users, same, queryRaises, verify, username, password).value;
              r == Redirect("/dashboard", SeeOther,
                            Some(Cookie(TokenCookie, LoginToken(sign, user.username, now), true, ExpireMinutes * 60, "lax")),
                            None)
  {
    match AuthenticateUser(users, same, queryRaises, verify, username, password)
    case None => Template(LoginTemplate, "Invalid username or password")
    case Some(user) =>
      Redirect("/dashboard", SeeOther,
               Some(Cookie(TokenCookie, LoginToken(sign, user.username, now), true, ExpireMinutes * 60, "lax")),
               None)
  }

  /** `logout()`: back to the home page without the token cookie. */
  function Logout(): (r: Response)
    ensures r.Redirect? && r.url == "/" && r.status == SeeOther
    ensures r.setCookie.None? && r.deleteCookie == Some(TokenCookie)
  {
    Redirect("/", SeeOther, None, Some(TokenCookie))
  }

  datatype TokenGrant = TokenGrant(accessToken: string, tokenType: string)

  /** `login_for_access_token(form_data)`. */
  function LoginForAccessToken(users: seq<User>, same: Collation, queryRaises: bool, verify: Verifier, sign: Signer,
                               now: int, username: string, password: string): (r: Result<TokenGrant, HttpError>)
    ensures r.Err? <==> AuthenticateUser(users, same, queryRaises, verify, username, password).None?
    ensures r.Err? ==> r.error == HttpError(401, "Incorrect username or password", map["WWW-Authenticate" := "Bearer"])
    ensures r.Ok? ==>
              r.value == TokenGrant(LoginToken(sign, AuthenticateUser(users, same, queryRaises, verify, username, password).value.username, now),
                                    "bearer")
  {
    match AuthenticateUser(users, same, queryRaises, verify, username, password)
    case None => Err(HttpError(401, "Incorrect username or password", map["WWW-Authenticate" := "Bearer"]))
    case Some(user) => Ok(TokenGrant(LoginToken(sign, user.username, now), "bearer"))
  }

  /** The cookie a successful login sets identifies the same user to
      `get_current_user`, when the token decodes to what was signed. */
  lemma LoginCookieAuthenticates(users: seq<User>, same: Collation, verify: Verifier, sign: Signer, decode: Decoder,
                                 now: int, username: string, password: string)
    requires Equivalence(same)
    requires Login(users, same, false, verify, sign, now, username, password).Redirect?
    requires var name := AuthenticateUser(users, same, false, verify, username, password).value.username;
             var token := LoginToken(sign, name, now);
             token != [] && !StartsWith(token, BearerPrefix)
             && decode(token) == Some(TokenClaims(SubjectClaims(name), Some(ExpireMinutes * 60), now))
    ensures var cookie := Login(users, same, false, verify, sign, now, username, password).setCookie.value;
            cookie.key == TokenCookie
            && GetCurrentUser(Some(cookie.value), decode, users, same, false)
               == Ok(AuthenticateUser(users, same, false, verify, username, password).value)
  {
    var user := AuthenticateUser(users, same, false, verify, username, password).value;
    assert user in users;
    IssuedTokenIdentifiesUser(sign, decode, users, same, user, Some(ExpireMinutes * 60), now);
    EquivalentNamesSameRow(users, same, user.username, username);
  }

  /** Why a signup is refused, checked in the route's order: the password
      confirmation first (before any query), then the username, then the
      email. */
  function SignupRejection(users: seq<User>, same: Collation, username: string, email: string, password: string,
                           confirmPassword: string): (r: Option<string>)
    ensures password != confirmPassword ==> r == Some("Passwords do not match")
    ensures password == confirmPassword && ByUsername(users, same, username).Some? ==>
              r == Some("Username already registered")
    ensures (password == confirmPassword && ByUsername(users, same, username).None?
             && FirstWhere(users, same, EmailColumn, email).Some?)
            ==> r == Some("Email already registered")
    ensures r.None? <==> password == confirmPassword
                         && (forall i :: 0 <= i < |users| ==> !same(users[i].username, username) && !same(users[i].email, email))
  {
    if password != confirmPassword then Some("Passwords do not match")
    else if ByUsername(users, same, username).Some? then Some("Username already registered")
    else if FirstWhere(users, same, EmailColumn, email).Some? then Some("Email already registered")
    else None
  }

  /** The users table, with its autoincrement counter and the collation its
      queries compare with. */
  class UserTable {
    var users: seq<User>
    var nextId: nat
    const same: Collation

    /** Ids increase and stay below the counter; no row's username or email
        is one an earlier row's query would find. */
    predicate Valid()
      reads this
    {
      (forall i, j :: 0 <= i < j < |users| ==> users[i].id < users[j].id)
      && (forall i :: 0 <= i < |users| ==> users[i].id < nextId)
      && (forall i, j :: 0 <= i < j < |users| ==>
            !same(users[i].username, users[j].username) && !same(users[i].email, users[j].email))
    }

    constructor (same: Collation)
      ensures Valid() && users == [] && nextId == 1 && this.same == same
    {
      users := [];
      nextId := 1;
      this.same := same;
    }

    /** `create_user(...)`. `hash` is `get_password_hash`, `None` when it
        raises (the error leaves the route). */
    method CreateUser(username: string, email: string, fullName: string, password: string,
                      confirmPassword: string, hash: string -> Option<string>) returns (r: Response)
      requires Valid()
      modifies this
      ensures Valid()
      ensures SignupRejection(old(users), same, username, email, password, confirmPassword).Some? ==>
                r == Template(SignupTemplate, SignupRejection(old(users), same, username, email, password, confirmPassword).value)
                && users == old(users) && nextId == old(nextId)
      ensures SignupRejection(old(users), same, username, email, password, confirmPassword).None? && hash(password).None? ==>
                r == Unhandled && users == old(users) && nextId == old(nextId)
      ensures SignupRejection(old(users), same, username, email, password, confirmPassword).None? && hash(password).Some? ==>
                r == Redirect("/auth/login?registered=true", SeeOther, None, None)
                && users == old(users) + [User(old(nextId), username, email, fullName, hash(password).value)]
                && nextId == old(nextId) + 1
    {
      var rejection := SignupRejection(users, same, username, email, password, confirmPassword);
      if rejection.Some? {
        return Template(SignupTemplate, rejection.value);
      }
      var hashed := hash(password);
      if hashed.None? {
        return Unhandled;
      }
      users := users + [User(nextId, username, email, fullName, hashed.value)];
      nextId := nextId + 1;
      r := Redirect("/auth/login?registered=true", SeeOther, None, None);
    }
  }

  /** A registered user can then log in with the same password, provided the
      hash verifies against it and the collation finds the name itself. */
  lemma SignupThenLogin(users: seq<User>, same: Collation, username: string, email: string, fullName: string,
                        password: string, hashed: string, id: nat, verify: Verifier, sign: Signer, now: int)
    requires SignupRejection(users, same, username, email, password, password).None?
    requires verify(password, hashed) == Some(true) && same(username, username)
    ensures Login(users + [User(id, username, email, fullName, hashed)], same, false, verify, sign, now, username,
                  password).Redirect?
  {
    var after := users + [User(id, username, email, fullName, hashed)];
    assert forall i :: 0 <= i < |users| ==> !Matches(after[i], UsernameColumn, username, same);
    assert Matches(after[|users|], UsernameColumn, username, same);
    assert ByUsername(after, same, username) == Some(User(id, username, email, fullName, hashed));
  }
}
