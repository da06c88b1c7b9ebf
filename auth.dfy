/**
 * The back end's account routes: registration, login, e-mail verification,
 * re-sending the verification link, the current-user lookup and the
 * password-reset request, as operations on a table of user rows keyed by
 * e-mail address.
 *
 * The clock (`now`, in seconds), the freshly generated token and the
 * DEMO_MODE environment value are parameters. Password hashing, password
 * checking and access-token signing are functions the table is given and
 * about which nothing is assumed.
 */
module Auth {
  import opened Common

  datatype Role = Customer | Admin | Financier

  /** `UserRole.value`, the text put into the access token. */
  function RoleValue(r: Role): string
  {
    match r
    case Customer => "CUSTOMER"
    case Admin => "ADMIN"
    case Financier => "FINANCIER"
  }

  /** One row of the users table. Times are seconds on the server's clock. */
  datatype User = User(
    id: nat,
    email: string,
    passwordHash: string,
    role: Role,
    firstName: Option<string>,
    lastName: Option<string>,
    phone: Option<string>,
    companyName: Option<string>,
    businessId: Option<string>,
    isActive: bool,
    isVerified: bool,
    verificationToken: Option<string>,
    verificationTokenExpires: Option<int>,
    lastLogin: Option<int>)

  /** The registration form (`UserCreate`). */
  datatype Registration = Registration(
    email: string,
    password: string,
    firstName: Option<string>,
    lastName: Option<string>,
    phone: Option<string>,
    companyName: Option<string>,
    businessId: Option<string>)

  /** The claims put into an access token. */
  datatype Claims = Claims(sub: string, email: string, role: string)

  /** The `Token` response: the signed access token and the user. */
  datatype Token = Token(accessToken: string, user: User)

  /** The HTTP errors the routes raise. */
  datatype AuthError =
    | EmailTaken
    | BadCredentials
    | NotActive
    | BadVerificationLink
    | VerificationLinkExpired
    | AlreadyVerified
    | SeveralUsersWithToken

  function StatusCode(e: AuthError): int
  {
    match e
    case EmailTaken => 400
    case BadCredentials => 401
    case NotActive => 403
    case BadVerificationLink => 400
    case VerificationLinkExpired => 400
    case AlreadyVerified => 400
    case SeveralUsersWithToken => 500
  }

  /** The `detail` text of each error (the last one is the framework's own error page). */
  function Detail(e: AuthError): string
  {
    match e
    case EmailTaken => "Sähköpostiosoite on jo käytössä"
    case BadCredentials => "Virheellinen sähköposti tai salasana"
    case NotActive => "Tili ei ole aktiivinen"
    case BadVerificationLink => "Virheellinen vahvistuslinkki"
    case VerificationLinkExpired => "Vahvistuslinkki on vanhentunut"
    case AlreadyVerified => "Tili on jo vahvistettu"
    case SeveralUsersWithToken => "Internal Server Error"
  }

  datatype Result<T> = Ok(value: T) | Err(error: AuthError)

  const VerifiedMessage: string := "Sähköposti vahvistettu onnistuneesti"
  const ResentMessage: string := "Vahvistuslinkki lähetetty"
  const ResetMessage: string := "Jos sähköposti on rekisteröity, lähetimme sinulle salasanan palautuslinkin."

  /** Lifetime of a verification link: 24 hours. */
  const VerificationLifetime: int := 24 * 3600
  /** Lifetime of a password-reset token: 2 hours. */
  const ResetLifetime: int := 2 * 3600

  /** `os.getenv("DEMO_MODE", "true").lower() == "true"`. */
  function DemoMode(env: Option<string>): (demo: bool)
    ensures env.None? ==> demo
    ensures env.Some? ==> (demo <==> ToLower(env.value) == "true")
  {
    ToLower(env.GetOr("true")) == "true"
  }

  /** The token claims of a user: its id as text, its e-mail and its role. */
  function ClaimsOf(u: User): (c: Claims)
    ensures forall i :: 0 <= i < |c.sub| ==> IsDigit(c.sub[i])
    ensures DigitsValue(c.sub) == u.id
    ensures c.email == u.email && c.role == RoleValue(u.role)
  {
    NatToStringValue(u.id);
    Claims(NatToString(u.id), u.email, RoleValue(u.role))
  }

  /** `expires and expires < now`: only a set expiry strictly before now has passed. */
  predicate Expired(expires: Option<int>, now: int)
  {
    expires.Some? && expires.value < now
  }

  /** A link is still good at its exact expiry instant, and a missing expiry never passes. */
  lemma ExpiryBoundary(t: int, now: int)
    ensures !Expired(Some(t), t)
    ensures Expired(Some(t), now) <==> t < now
    ensures !Expired(None, now)
  {
  }

  class UserTable {
    /** The rows, keyed by their exact (case-sensitive) e-mail address. */
    var users: map<string, User>
    /** The id the database gives the next inserted row. */
    var nextId: nat
    const hashPassword: string -> string
    const verifyPassword: (string, string) -> bool
    const createAccessToken: Claims -> string

    ghost predicate Valid()
      reads this
    {
      && (forall e :: e in users ==> users[e].email == e && users[e].id < nextId)
      && (forall e, f :: e in users && f in users && users[e].id == users[f].id ==> e == f)
    }

    /** The e-mail addresses of the rows whose verification token is `token`. */
    ghost function Holders(token: string): set<string>
      reads this
    {
      set e | e in users && users[e].verificationToken == Some(token)
    }

    constructor (hashPassword: string -> string, verifyPassword: (string, string) -> bool,
                 createAccessToken: Claims -> string)
      ensures Valid() && users == map[] && nextId == 1
      ensures this.hashPassword == hashPassword && this.verifyPassword == verifyPassword
      ensures this.createAccessToken == createAccessToken
    {
      users := map[];
      nextId := 1;
      this.hashPassword := hashPassword;
      this.verifyPassword := verifyPassword;
      this.createAccessToken := createAccessToken;
    }

    /** POST /register. */
    method Register(data: Registration, env: Option<string>, freshToken: string, now: int)
      returns (r: Result<Token>)
      requires Valid()
      modifies this
      ensures Valid()
      ensures data.email in old(users) ==> r == Err(EmailTaken) && users == old(users)
      ensures data.email !in old(users) ==> r.Ok? && users == old(users)[data.email := r.value.user]
      ensures r.Ok? ==>
        var u := r.value.user;
        && u.id == old(nextId) && u.email == data.email
        && u.passwordHash == hashPassword(data.password)
        && u.role == Customer && u.isActive
        && u.firstName == data.firstName && u.lastName == data.lastName && u.phone == data.phone
        && u.companyName == data.companyName && u.businessId == data.businessId
        && u.isVerified == DemoMode(env)
        && (DemoMode(env) ==> u.verificationToken == None && u.verificationTokenExpires == None)
        && (!DemoMode(env) ==> u.verificationToken == Some(freshToken)
                               && u.verificationTokenExpires == Some(now + VerificationLifetime))
        && u.lastLogin == None
        && r.value.accessToken == createAccessToken(ClaimsOf(u))
    {
      if data.email in users {
        return Err(EmailTaken);
      }
      var demo := DemoMode(env);
      var u := User(nextId, data.email, hashPassword(data.password), Customer,
                    data.firstName, data.lastName, data.phone, data.companyName, data.businessId,
                    true, demo,
                    if demo then None else Some(freshToken),
                    if demo then None else Some(now + VerificationLifetime),
                    None);
      users := users[data.email := u];
      nextId := nextId + 1;
      r := Ok(Token(createAccessToken(ClaimsOf(u)), u));
    }

    /** POST /login. */
    method Login(email: string, password: string, now: int) returns (r: Result<Token>)
      requires Valid()
      modifies this
      ensures Valid() && nextId == old(nextId)
      ensures email !in old(users) ==> r == Err(BadCredentials) && users == old(users)
      ensures email in old(users) && !verifyPassword(password, old(users)[email].passwordHash) ==>
        r == Err(BadCredentials) && users == old(users)
      ensures email in old(users) && verifyPassword(password, old(users)[email].passwordHash)
              && !old(users)[email].isActive ==>
        r == Err(NotActive) && users == old(users)
      ensures r.Ok? <==>
        email in old(users) && verifyPassword(password, old(users)[email].passwordHash)
        && old(users)[email].isActive
      ensures r.Ok? ==>
        var u := old(users)[email].(lastLogin := Some(now));
        users == old(users)[email := u] && r.value == Token(createAccessToken(ClaimsOf(u)), u)
    {
      if email !in users || !verifyPassword(password, users[email].passwordHash) {
        return Err(BadCredentials);
      }
      if !users[email].isActive {
        return Err(NotActive);
      }
      var u := users[email].(lastLogin := Some(now));
      users := users[email := u];
      r := Ok(Token(createAccessToken(ClaimsOf(u)), u));
    }

    /** POST /verify/{token}. */
    method VerifyEmail(token: string, now: int) returns (r: Result<string>)
      requires Valid()
      modifies this
      ensures Valid() && nextId == old(nextId) && users.Keys == old(users).Keys
      ensures old(Holders(token)) == {} ==> r == Err(BadVerificationLink) && users == old(users)
      ensures |old(Holders(token))| > 1 ==> r == Err(SeveralUsersWithToken) && users == old(users)
      ensures forall e :: old(Holders(token)) == {e} ==>
        if Expired(old(users)[e].verificationTokenExpires, now) then
          r == Err(VerificationLinkExpired) && users == old(users)
        else
          r == Ok(VerifiedMessage)
          && users == old(users)[e := old(users)[e].(isVerified := true, verificationToken := None,
                                                     verificationTokenExpires := None)]
      ensures r.Ok? ==> Holders(token) == {}
    {
      var holders := set e | e in users && users[e].verificationToken == Some(token);
      assert holders == Holders(token);
      if holders == {} {
        return Err(BadVerificationLink);
      }
      var e :| e in holders;
      if holders != {e} {
        assert |holders| > 1 by {
          var f :| f in holders && f != e;
          var rest := holders - {e};
          assert f in rest;
          assert |holders| == |rest| + 1;
        }
        return Err(SeveralUsersWithToken);
      }
      var u := users[e];
      if Expired(u.verificationTokenExpires, now) {
        return Err(VerificationLinkExpired);
      }
      users := users[e := u.(isVerified := true, verificationToken := None, verificationTokenExpires := None)];
      r := Ok(VerifiedMessage);
      assert Holders(token) == {} by {
        forall f | f in users ensures users[f].verificationToken != Some(token) {
          if f != e { assert f in old(users) && f !in old(Holders(token)); }
        }
      }
    }

    /** POST /resend-verification, for the authenticated user `email`. */
    method ResendVerification(email: string, freshToken: string, now: int) returns (r: Result<string>)
      requires Valid() && email in users
      modifies this
      ensures Valid() && nextId == old(nextId)
      ensures old(users)[email].isVerified ==> r == Err(AlreadyVerified) && users == old(users)
      ensures !old(users)[email].isVerified ==>
        r == Ok(ResentMessage)
        && users == old(users)[email := old(users)[email].(verificationToken := Some(freshToken),
                                                           verificationTokenExpires := Some(now + VerificationLifetime))]
    {
      var u := users[email];
      if u.isVerified {
        return Err(AlreadyVerified);
      }
      users := users[email := u.(verificationToken := Some(freshToken),
                                 verificationTokenExpires := Some(now + VerificationLifetime))];
      r := Ok(ResentMessage);
    }

    /** GET /me, for the authenticated user `email`: the row itself, nothing changes. */
    method GetMe(email: string) returns (u: User)
      requires Valid() && email in users
      ensures u == users[email] && u.email == email
    {
      u := users[email];
    }

    /** POST /forgot-password. */
    method ForgotPassword(email: string, freshToken: string, now: int) returns (message: string)
      requires Valid()
      modifies this
      ensures Valid() && nextId == old(nextId)
      ensures message == ResetMessage
      ensures email !in old(users) ==> users == old(users)
      ensures email in old(users) ==>
        users == old(users)[email := old(users)[email].(verificationToken := Some(freshToken),
                                                        verificationTokenExpires := Some(now + ResetLifetime))]
    {
      if email in users {
        var u := users[email];
        users := users[email := u.(verificationToken := Some(freshToken),
                                   verificationTokenExpires := Some(now + ResetLifetime))];
      }
      message := ResetMessage;
    }
  }

  /** A verification link works once: replaying it is a bad link. */
  method VerifyTwice(table: UserTable, token: string, now: int, later: int)
    returns (first: Result<string>, second: Result<string>)
    requires table.Valid()
    modifies table
    ensures first.Ok? ==> second == Err(BadVerificationLink)
  {
    first := table.VerifyEmail(token, now);
    second := table.VerifyEmail(token, later);
  }

  /**
   * The password-reset token is stored in the verification field, so it also
   * verifies the account's e-mail address when presented to /verify.
   */
  method ResetTokenVerifies(table: UserTable, email: string, resetToken: string, now: int)
    returns (r: Result<string>)
    requires table.Valid() && email in table.users
    requires forall e :: e in table.users ==> table.users[e].verificationToken != Some(resetToken)
    modifies table
    ensures email in table.users && r == Ok(VerifiedMessage) && table.users[email].isVerified
  {
    var message := table.ForgotPassword(email, resetToken, now);
    assert table.Holders(resetToken) == {email} by {
      forall f | f in table.users && f != email
        ensures table.users[f].verificationToken != Some(resetToken)
      {
        assert table.users[f] == old(table.users)[f];
      }
    }
    r := table.VerifyEmail(resetToken, now);
  }

  /** Issuing a new link makes the previous one a bad link. */
  method ResendRevokesOldLink(table: UserTable, email: string, oldToken: string, freshToken: string, now: int)
    returns (resent: Result<string>, verified: Result<string>)
    requires table.Valid() && email in table.users && !table.users[email].isVerified
    requires table.Holders(oldToken) == {email} && freshToken != oldToken
    modifies table
    ensures resent.Ok? && verified == Err(BadVerificationLink)
  {
    resent := table.ResendVerification(email, freshToken, now);
    assert table.Holders(oldToken) == {} by {
      forall f | f in table.users ensures table.users[f].verificationToken != Some(oldToken) {
        if f != email { assert f in old(table.users) && f !in old(table.Holders(oldToken)); }
      }
    }
    verified := table.VerifyEmail(oldToken, now);
  }
}
