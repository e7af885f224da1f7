/** app/utils/security.py: password checks, token issuing and the
    cookie-to-user chain. bcrypt and JWT are oracles: `Verifier` answers
    whether a password matches a hash (`None` when the library raises),
    `Signer` encodes a claim set, `Decoder` decodes a token (`None` for a
    `JWTError`, expiry included). The users table is read as a list of rows;
    a query that raises is a flag. How the database compares a stored value
    with the queried one is an oracle too (`Collation`): the tables use the
    server's default collation, which ignores case. */
module Security {
  import opened Common

  datatype User = User(id: nat, username: string, email: string, fullName: string, hashedPassword: string)

  type Verifier = (string, string) -> Option<bool>

  /** A JWT claim value. */
  datatype Claim = Text(s: string) | Instant(seconds: int) | Null

  type Claims = map<string, Claim>
  type Signer = Claims -> string
  type Decoder = string -> Option<Claims>

  /** The two columns the application filters users by. */
  datatype Column = UsernameColumn | EmailColumn

  /** Whether the database finds a stored string (first) equal to a
      queried one (second) in a `==` filter. */
  type Collation = (string, string) -> bool

  /** What any collation is: an equivalence relation. */
  ghost predicate Equivalence(same: Collation) {
    && (forall a :: same(a, a))
    && (forall a, b :: same(a, b) ==> same(b, a))
    && (forall a, b, c :: same(a, b) && same(b, c) ==> same(a, c))
  }

  predicate Matches(u: User, column: Column, value: string, same: Collation) {
    match column
    case UsernameColumn => same(u.username, value)
    case EmailColumn => same(u.email, value)
  }

  /** `query(User).filter(column == value).first()`: the first matching row,
      with the rows in table order. */
  function FirstWhere(users: seq<User>, same: Collation, column: Column, value: string): (r: Option<User>)
    ensures r.None? <==> forall i :: 0 <= i < |users| ==> !Matches(users[i], column, value, same)
    ensures r.Some? ==> Matches(r.value, column, value, same)
    ensures r.Some? ==> exists i :: 0 <= i < |users| && users[i] == r.value
                                    && forall j :: 0 <= j < i ==> !Matches(users[j], column, value, same)
  {
    if users == [] then None
    else if Matches(users[0], column, value, same) then Some(users[0])
    else
      var r := FirstWhere(users[1..], same, column, value);
      assert forall i :: 1 <= i < |users| ==> users[i] == users[1..][i - 1];
      if r.Some? then
        var i :| 0 <= i < |users[1..]| && users[1..][i] == r.value
                 && forall j :: 0 <= j < i ==> !Matches(users[1..][j], column, value, same);
        assert users[i + 1] == r.value;
        r
      else r
  }

  function ByUsername(users: seq<User>, same: Collation, username: string): Option<User> {
    FirstWhere(users, same, UsernameColumn, username)
  }

  /** Under an equivalence, two names the database finds equal look up the
      same row. */
  lemma {:induction false} EquivalentNamesSameRow(users: seq<User>, same: Collation, a: string, b: string)
    requires Equivalence(same) && same(a, b)
    ensures ByUsername(users, same, a) == ByUsername(users, same, b)
  {
    if users != [] {
      assert same(users[0].username, a) <==> same(users[0].username, b);
      EquivalentNamesSameRow(users[1..], same, a, b);
    }
  }

  /** ASCII lower case, the comparison of a case-insensitive collation. */
  function IgnoreCase(a: string, b: string): bool {
    Lower(a) == Lower(b)
  }

  /** With the default collation a differently-cased name finds the stored
      row: "alice" is "Alice". */
  lemma CaseInsensitiveLookup(alice: User)
    requires alice.username == "Alice"
    ensures ByUsername([alice], IgnoreCase, "alice") == Some(alice)
  {
    assert Lower("Alice") == "alice";
    assert Lower("alice") == "alice";
  }

  /** `verify_password`: a library error counts as a mismatch. */
  function VerifyPassword(verify: Verifier, plain: string, hashed: string): (ok: bool)
    ensures ok <==> verify(plain, hashed) == Some(true)
    ensures verify(plain, hashed).None? ==> !ok
  {
    match verify(plain, hashed)
    case Some(b) => b
    case None => false
  }

  /** `authenticate_user(db, username, password)`: the user, or `None` where
      the source returns `False`. */
  function AuthenticateUser(users: seq<User>, same: Collation, queryRaises: bool, verify: Verifier,
                            username: string, password: string): (r: Option<User>)
    ensures queryRaises ==> r.None?
    ensures ByUsername(users, same, username).None? ==> r.None?
    ensures r.Some? <==> !queryRaises && ByUsername(users, same, username).Some?
                         && verify(password, ByUsername(users, same, username).value.hashedPassword) == Some(true)
    ensures r.Some? ==> r == ByUsername(users, same, username) && same(r.value.username, username)
  {
    if queryRaises then None
    else
      match ByUsername(users, same, username)
      case None => None
      case Some(user) => if VerifyPassword(verify, password, user.hashedPassword) then Some(user) else None
  }

  /** `ACCESS_TOKEN_EXPIRE_MINUTES` with its environment default. */
  const ExpireMinutes := 30

  /** The `exp` instant, in seconds from `now`. A `timedelta` is false
      exactly when it is zero, so a zero delta also gets the default. */
  function ExpiryOf(expiresDelta: Option<int>, now: int): (exp: int)
    ensures expiresDelta.Some? && expiresDelta.value != 0 ==> exp == now + expiresDelta.value
    ensures expiresDelta.None? || expiresDelta == Some(0) ==> exp == now + ExpireMinutes * 60
  {
    if expiresDelta.Some? && expiresDelta.value != 0 then now + expiresDelta.value else now + ExpireMinutes * 60
  }

  /** The claims `create_access_token` encodes: a copy of `data` with `exp`
      set; the caller's dict is a value here and cannot change. */
  function TokenClaims(data: Claims, expiresDelta: Option<int>, now: int): (c: Claims)
    ensures c.Keys == data.Keys + {"exp"}
    ensures c["exp"] == Instant(ExpiryOf(expiresDelta, now))
    ensures forall k :: k in data && k != "exp" ==> c[k] == data[k]
  {
    data["exp" := Instant(ExpiryOf(expiresDelta, now))]
  }

  function CreateAccessToken(sign: Signer, data: Claims, expiresDelta: Option<int>, now: int): string {
    sign(TokenClaims(data, expiresDelta, now))
  }

  /** A token decoded with the key and algorithm it was signed with gives
      back the caller's claims, with `exp` set to the expiry. */
  lemma AccessTokenCarriesClaims(sign: Signer, decode: Decoder, data: Claims, expiresDelta: Option<int>, now: int)
    requires decode(sign(TokenClaims(data, expiresDelta, now))) == Some(TokenClaims(data, expiresDelta, now))
    ensures var decoded := decode(CreateAccessToken(sign, data, expiresDelta, now));
            && decoded.Some?
            && decoded.value.Keys == data.Keys + {"exp"}
            && decoded.value["exp"] == Instant(ExpiryOf(expiresDelta, now))
            && forall k :: k in data && k != "exp" ==> decoded.value[k] == data[k]
  {
  }

  const BearerPrefix := "Bearer "

  /** Removes one leading `Bearer `, as `token[7:]` does. */
  function StripBearer(token: string): (r: string)
    ensures StartsWith(token, BearerPrefix) ==> BearerPrefix + r == token
    ensures !StartsWith(token, BearerPrefix) ==> r == token
  {
    if StartsWith(token, BearerPrefix) then token[|BearerPrefix|..] else token
  }

  datatype HttpError = HttpError(status: nat, detail: string, headers: map<string, string>)

  const CredentialsError := HttpError(401, "Could not validate credentials", map["WWW-Authenticate" := "Bearer"])

  /** `get_current_user(request, db)` given the `access_token` cookie: every
      failure, including an unexpected one, is the same 401. */
  function GetCurrentUser(cookie: Option<string>, decode: Decoder, users: seq<User>, same: Collation, queryRaises: bool)
    : (r: Result<User, HttpError>)
    ensures r.Err? ==> r.error == CredentialsError
    ensures cookie.None? || cookie == Some("") ==> r.Err?
    ensures cookie.Some? && cookie.value != [] && decode(StripBearer(cookie.value)).None? ==> r.Err?
    ensures r.Ok? <==>
      && cookie.Some? && cookie.value != []
      && decode(StripBearer(cookie.value)).Some?
      && var claims := decode(StripBearer(cookie.value)).value;
      && "sub" in claims && claims["sub"].Text?
      && !queryRaises && ByUsername(users, same, claims["sub"].s).Some?
    ensures r.Ok? ==> r.value == ByUsername(users, same, decode(StripBearer(cookie.value)).value["sub"].s).value
  {
    if cookie.None? || cookie.value == [] then Err(CredentialsError)
    else
      var token := StripBearer(cookie.value);
      match decode(token)
      case None => Err(CredentialsError)
      case Some(claims) =>
        if "sub" !in claims || claims["sub"].Null? then Err(CredentialsError)
        else if queryRaises then Err(CredentialsError)
        else
          match claims["sub"]
          // a non-string subject matches no username
          case Text(username) =>
            if ByUsername(users, same, username).Some? then Ok(ByUsername(users, same, username).value) else Err(CredentialsError)
          case _ => Err(CredentialsError)
  }

  /** A cookie with the prefix authenticates exactly like the bare token,
      provided the token does not itself start with `Bearer `. */
  lemma BearerPrefixOptional(token: string, decode: Decoder, users: seq<User>, same: Collation, queryRaises: bool)
    requires token != [] && !StartsWith(token, BearerPrefix)
    ensures GetCurrentUser(Some(BearerPrefix + token), decode, users, same, queryRaises)
            == GetCurrentUser(Some(token), decode, users, same, queryRaises)
  {
    assert StartsWith(BearerPrefix + token, BearerPrefix);
    assert StripBearer(BearerPrefix + token) == token;
  }

  /** Only one prefix is removed: a doubled prefix is decoded with one
      `Bearer ` still in front. */
  lemma BearerStrippedOnce(token: string)
    ensures StripBearer(BearerPrefix + BearerPrefix + token) == BearerPrefix + token
  {
    assert StartsWith(BearerPrefix + BearerPrefix + token, BearerPrefix);
  }

  /** A token issued for a user's name, decoded faithfully, gets back the
      first row the database finds under that name. */
  lemma IssuedTokenIdentifiesUser(sign: Signer, decode: Decoder, users: seq<User>, same: Collation, user: User,
                                  expiresDelta: Option<int>, now: int)
    requires user in users && same(user.username, user.username)
    requires var token := CreateAccessToken(sign, map["sub" := Text(user.username)], expiresDelta, now);
             token != [] && !StartsWith(token, BearerPrefix)
             && decode(token) == Some(TokenClaims(map["sub" := Text(user.username)], expiresDelta, now))
    ensures GetCurrentUser(Some(CreateAccessToken(sign, map["sub" := Text(user.username)], expiresDelta, now)),
                           decode, users, same, false)
            == Ok(ByUsername(users, same, user.username).value)
    ensures same(ByUsername(users, same, user.username).value.username, user.username)
  {
    var claims := TokenClaims(map["sub" := Text(user.username)], expiresDelta, now);
    assert claims["sub"] == Text(user.username);
    var i :| 0 <= i < |users| && users[i] == user;
    assert Matches(users[i], UsernameColumn, user.username, same);
  }
}
