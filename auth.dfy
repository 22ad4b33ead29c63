/** Authentication: sign-up of a company with its first administrator, login, rotation of
    refresh tokens, logout, invitations and their acceptance. The cryptography is outside
    the model: bcrypt's hash is the `hashed` parameter, its compare is `compare`, the JWT
    signer is `sign`, and every uuid the service draws is a parameter. */
module Auth {
  import opened Common

  datatype Role = ADMIN | MANAGER | SUPERVISOR | WORKER

  datatype Company = Company(id: Id, name: string, plan: string, subscriptionStatus: string, trialEndsAt: int)

  /** A user row; `password` is the bcrypt hash, absent for accounts without one. */
  datatype User = User(
    id: Id, companyId: Id, email: string, name: string,
    password: Option<string>, role: Role, isActive: bool)

  datatype RefreshToken = RefreshToken(id: Id, userId: Id, token: string, expiresAt: int)

  datatype Invite = Invite(
    id: Id, companyId: Id, email: string, token: string, role: Role,
    invitedBy: Id, expiresAt: int, acceptedAt: Option<int>)

  /** Refresh tokens are filed under their (unique) token string. */
  datatype AuthDb = AuthDb(
    companies: map<Id, Company>,
    users: seq<User>,
    tokens: map<string, RefreshToken>,
    invites: seq<Invite>,
    nextId: Id)

  /** The unique columns: a user's e-mail, a refresh token, an invite's token and an
      invite's (company, e-mail) pair; and every id below the counter. */
  ghost predicate ValidDb(db: AuthDb) {
    (forall id :: id in db.companies ==> id < db.nextId) &&
    (forall i :: 0 <= i < |db.users| ==> db.users[i].id < db.nextId) &&
    (forall i, j :: 0 <= i < j < |db.users| ==> db.users[i].email != db.users[j].email) &&
    (forall k :: k in db.tokens ==> db.tokens[k].token == k && db.tokens[k].id < db.nextId) &&
    (forall i :: 0 <= i < |db.invites| ==> db.invites[i].id < db.nextId) &&
    (forall i, j :: 0 <= i < j < |db.invites| ==>
       db.invites[i].token != db.invites[j].token &&
       !(db.invites[i].companyId == db.invites[j].companyId && db.invites[i].email == db.invites[j].email))
  }

  datatype Step<T> = Step(result: Result<T>, db: AuthDb)

  /** The JWT payload. */
  datatype Claims = Claims(sub: Id, email: string, role: Role, companyId: Id)

  datatype Tokens = Tokens(accessToken: string, refreshToken: string)

  /** The user fields the endpoints return; never the password. */
  datatype UserView = UserView(id: Id, name: string, email: string, role: Role, companyId: Id)

  function View(u: User): (v: UserView)
    ensures v.id == u.id && v.email == u.email && v.role == u.role && v.companyId == u.companyId
  {
    UserView(u.id, u.name, u.email, u.role, u.companyId)
  }

  const RefreshLifetimeMs: int := 7 * DayMs
  const TrialMs: int := 14 * DayMs
  const InviteLifetimeMs: int := 7 * DayMs

  // ----- lookups on unique columns -----

  /** Messages of the database's unique-constraint violations. */
  const TokenTaken := "Unique constraint failed on the fields: (`token`)"
  const InviteTaken := "Unique constraint failed on the fields: (`companyId`,`email`) or (`token`)"

  function UserByEmail(users: seq<User>, email: string): (r: Option<User>)
    ensures r.Some? ==> r.value in users && r.value.email == email
    ensures r.None? <==> forall i :: 0 <= i < |users| ==> users[i].email != email
  {
    First(users, (u: User) => u.email == email)
  }

  function UserById(users: seq<User>, id: Id): (r: Option<User>)
    ensures r.Some? ==> r.value in users && r.value.id == id
    ensures r.None? <==> forall i :: 0 <= i < |users| ==> users[i].id != id
  {
    First(users, (u: User) => u.id == id)
  }

  function InviteByToken(invites: seq<Invite>, token: string): (r: Option<Invite>)
    ensures r.Some? ==> r.value in invites && r.value.token == token
    ensures r.None? <==> forall i :: 0 <= i < |invites| ==> invites[i].token != token
  {
    First(invites, (inv: Invite) => inv.token == token)
  }

  predicate InviteIs(inv: Invite, companyId: Id, email: string) {
    inv.companyId == companyId && inv.email == email
  }

  /** `findUnique` on the (company, e-mail) pair. */
  function InviteFor(invites: seq<Invite>, companyId: Id, email: string): (r: Option<Invite>)
    ensures r.Some? ==> r.value in invites && InviteIs(r.value, companyId, email)
    ensures r.None? <==> forall i :: 0 <= i < |invites| ==> !InviteIs(invites[i], companyId, email)
  {
    First(invites, (inv: Invite) => InviteIs(inv, companyId, email))
  }

  /** An invite added at the end is found only when no earlier one matches. */
  lemma {:induction false} InviteForAppend(invites: seq<Invite>, inv: Invite, companyId: Id, email: string)
    ensures InviteFor(invites + [inv], companyId, email) ==
              if InviteFor(invites, companyId, email).Some? then InviteFor(invites, companyId, email)
              else if InviteIs(inv, companyId, email) then Some(inv) else None
  {
    if invites != [] {
      assert (invites + [inv])[1..] == invites[1..] + [inv];
      InviteForAppend(invites[1..], inv, companyId, email);
    }
  }

  // ----- generateTokens -----

  /** `generateTokens`: signs the user's claims and stores a fresh refresh token that
      expires 7 days from now. The insert fails when the token string is already stored. */
  function GenerateTokensSpec(db: AuthDb, user: User, sign: Claims -> string, uuid: string, now: int): (r: Step<Tokens>)
    ensures r.result.Ok? <==> uuid !in db.tokens
    ensures r.result.Err? ==> r.db == db
    ensures r.result.Ok? ==>
              r.result.value == Tokens(sign(Claims(user.id, user.email, user.role, user.companyId)), uuid) &&
              r.db == db.(tokens := db.tokens[uuid := RefreshToken(db.nextId, user.id, uuid, now + RefreshLifetimeMs)],
                          nextId := db.nextId + 1)
    ensures r.db.users == db.users && r.db.invites == db.invites && r.db.companies == db.companies
  {
    if uuid in db.tokens then Step(Err(Conflict(TokenTaken)), db)
    else
      var row := RefreshToken(db.nextId, user.id, uuid, now + RefreshLifetimeMs);
      Step(Ok(Tokens(sign(Claims(user.id, user.email, user.role, user.companyId)), uuid)),
           db.(tokens := db.tokens[uuid := row], nextId := db.nextId + 1))
  }

  /** Issuing tokens keeps every unique column unique. */
  lemma TokensKeepDbValid(db: AuthDb, user: User, sign: Claims -> string, uuid: string, now: int)
    requires ValidDb(db)
    ensures ValidDb(GenerateTokensSpec(db, user, sign, uuid, now).db)
  {
  }

  // ----- signup -----

  datatype SignupDto = SignupDto(companyName: string, email: string, name: string, password: string)
  /** The user fields `signup` returns: the company id is given beside them, not inside. */
  datatype SignupUser = SignupUser(id: Id, name: string, email: string, role: Role)

  datatype SignupResult = SignupResult(companyId: Id, user: SignupUser, tokens: Tokens)

  /** The company and administrator `signup` creates together. */
  function TrialCompany(id: Id, name: string, now: int): Company {
    Company(id, name, "Starter", "trialing", now + TrialMs)
  }

  /** `signup`: an e-mail already registered is refused; otherwise a Starter company on a
      14-day trial and its first user, an ADMIN, are created together, then tokens issued. */
  function SignupSpec(db: AuthDb, dto: SignupDto, hashed: string, sign: Claims -> string, uuid: string, now: int)
    : (r: Step<SignupResult>)
    ensures UserByEmail(db.users, dto.email).Some? ==>
              r == Step(Err(BadRequest("User with this email already exists")), db)
    // the company and user are committed before the tokens are issued, so they stay even
    // when issuing fails
    ensures UserByEmail(db.users, dto.email).None? ==>
              r.db.companies == db.companies[db.nextId := TrialCompany(db.nextId, dto.companyName, now)] &&
              r.db.users == db.users + [User(db.nextId + 1, db.nextId, dto.email, dto.name, Some(hashed), ADMIN, true)] &&
              r.db.invites == db.invites &&
              r.db.tokens == (if uuid in db.tokens then db.tokens
                              else db.tokens[uuid := RefreshToken(db.nextId + 2, db.nextId + 1, uuid, now + RefreshLifetimeMs)]) &&
              r.db.nextId == (if uuid in db.tokens then db.nextId + 2 else db.nextId + 3)
    ensures r.result.Ok? <==> UserByEmail(db.users, dto.email).None? && uuid !in db.tokens
    ensures r.result.Ok? ==>
              r.result.value == SignupResult(db.nextId, SignupUser(db.nextId + 1, dto.name, dto.email, ADMIN),
                                             Tokens(sign(Claims(db.nextId + 1, dto.email, ADMIN, db.nextId)), uuid))
    ensures r.result.Ok? ==>
              var u := r.result.value.user;
              r.result.value.companyId in r.db.companies &&
              r.db.companies[r.result.value.companyId].trialEndsAt == now + 14 * DayMs &&
              r.db.companies[r.result.value.companyId].subscriptionStatus == "trialing" &&
              r.result.value.tokens.refreshToken in r.db.tokens &&
              r.db.tokens[r.result.value.tokens.refreshToken].userId == u.id
  {
    if UserByEmail(db.users, dto.email).Some? then Step(Err(BadRequest("User with this email already exists")), db)
    else
      var company := TrialCompany(db.nextId, dto.companyName, now);
      var user := User(db.nextId + 1, db.nextId, dto.email, dto.name, Some(hashed), ADMIN, true);
      var db1 := db.(companies := db.companies[company.id := company], users := db.users + [user],
                     nextId := db.nextId + 2);
      var t := GenerateTokensSpec(db1, user, sign, uuid, now);
      if t.result.Err? then Step(Err(t.result.error), t.db)
      else Step(Ok(SignupResult(company.id, SignupUser(user.id, user.name, user.email, user.role), t.result.value)), t.db)
  }

  /** Sign-up keeps every unique column unique: the new e-mail was not registered. */
  lemma SignupKeepsDbValid(db: AuthDb, dto: SignupDto, hashed: string, sign: Claims -> string, uuid: string, now: int)
    requires ValidDb(db)
    ensures ValidDb(SignupSpec(db, dto, hashed, sign, uuid, now).db)
  {
    if UserByEmail(db.users, dto.email).None? {
      var user := User(db.nextId + 1, db.nextId, dto.email, dto.name, Some(hashed), ADMIN, true);
      var db1 := db.(companies := db.companies[db.nextId := TrialCompany(db.nextId, dto.companyName, now)],
                     users := db.users + [user], nextId := db.nextId + 2);
      NewAccountKeepsDbValid(db, TrialCompany(db.nextId, dto.companyName, now), user);
      TokensKeepDbValid(db1, user, sign, uuid, now);
    }
  }

  /** A new company and its first user, with fresh ids and an unused e-mail, keep the tables well formed. */
  lemma NewAccountKeepsDbValid(db: AuthDb, company: Company, user: User)
    requires ValidDb(db) && user.id == db.nextId + 1
    requires forall i :: 0 <= i < |db.users| ==> db.users[i].email != user.email
    ensures ValidDb(db.(companies := db.companies[db.nextId := company], users := db.users + [user],
                        nextId := db.nextId + 2))
  {
  }

  /** Signing up twice with one e-mail creates one account: the second attempt is refused. */
  lemma SecondSignupRefused(db: AuthDb, dto1: SignupDto, dto2: SignupDto, h1: string, h2: string,
                            sign: Claims -> string, u1: string, u2: string, now1: int, now2: int)
    requires dto1.email == dto2.email
    ensures var first := SignupSpec(db, dto1, h1, sign, u1, now1);
            first.result.Ok? ==>
              SignupSpec(first.db, dto2, h2, sign, u2, now2) ==
              Step(Err(BadRequest("User with this email already exists")), first.db)
  {
    var first := SignupSpec(db, dto1, h1, sign, u1, now1);
    if first.result.Ok? {
      var user := User(db.nextId + 1, db.nextId, dto1.email, dto1.name, Some(h1), ADMIN, true);
      assert first.db.users[|db.users|] == user;
    }
  }

  // ----- login -----

  datatype Session = Session(user: UserView, tokens: Tokens)

  /** `login`: an unknown e-mail, a user without a password and a wrong password all give
      the same error; a deactivated account is reported only after the password matched. */
  function LoginSpec(db: AuthDb, email: string, password: string, compare: (string, string) -> bool,
                     sign: Claims -> string, uuid: string, now: int): (r: Step<Session>)
    ensures (UserByEmail(db.users, email).None? || !Given(UserByEmail(db.users, email).value.password)) ==>
              r == Step(Err(Unauthorized("Invalid credentials")), db)
    ensures var u := UserByEmail(db.users, email);
            u.Some? && Given(u.value.password) && !compare(password, u.value.password.value) ==>
              r == Step(Err(Unauthorized("Invalid credentials")), db)
    ensures var u := UserByEmail(db.users, email);
            u.Some? && Given(u.value.password) && compare(password, u.value.password.value) && !u.value.isActive ==>
              r == Step(Err(Unauthorized("Account is deactivated")), db)
    ensures r.result.Ok? <==>
              var u := UserByEmail(db.users, email);
              u.Some? && Given(u.value.password) && compare(password, u.value.password.value) &&
              u.value.isActive && uuid !in db.tokens
    ensures r.result.Ok? ==>
              var u := UserByEmail(db.users, email).value;
              r.result.value == Session(View(u), Tokens(sign(Claims(u.id, u.email, u.role, u.companyId)), uuid)) &&
              r.db == db.(tokens := db.tokens[uuid := RefreshToken(db.nextId, u.id, uuid, now + RefreshLifetimeMs)],
                          nextId := db.nextId + 1)
    ensures r.result.Err? ==> r.db == db
  {
    var u := UserByEmail(db.users, email);
    if u.None? || !Given(u.value.password) then Step(Err(Unauthorized("Invalid credentials")), db)
    else if !compare(password, u.value.password.value) then Step(Err(Unauthorized("Invalid credentials")), db)
    else if !u.value.isActive then Step(Err(Unauthorized("Account is deactivated")), db)
    else
      var t := GenerateTokensSpec(db, u.value, sign, uuid, now);
      if t.result.Err? then Step(Err(t.result.error), t.db)
      else Step(Ok(Session(View(u.value), t.result.value)), t.db)
  }

  // ----- refreshToken -----

  /** `refreshTokenDto.refreshToken || cookieToken`. */
  function PresentedToken(bodyToken: Option<string>, cookieToken: Option<string>): (t: Option<string>)
    ensures Given(t) <==> Given(bodyToken) || Given(cookieToken)
    ensures Given(bodyToken) ==> t == bodyToken
  {
    if Given(bodyToken) then bodyToken else cookieToken
  }

  /** `refreshToken`: the token must be presented, stored, unexpired and belong to an
      existing user; then new tokens are issued and the presented one is deleted. */
  function RefreshSpec(db: AuthDb, bodyToken: Option<string>, cookieToken: Option<string>,
                       sign: Claims -> string, uuid: string, now: int): (r: Step<Tokens>)
    ensures !Given(PresentedToken(bodyToken, cookieToken)) ==>
              r == Step(Err(Unauthorized("Refresh token is required")), db)
    ensures var t := PresentedToken(bodyToken, cookieToken);
            Given(t) && (t.value !in db.tokens || db.tokens[t.value].expiresAt < now) ==>
              r == Step(Err(Unauthorized("Invalid or expired refresh token")), db)
    ensures var t := PresentedToken(bodyToken, cookieToken);
            Given(t) && t.value in db.tokens && db.tokens[t.value].expiresAt >= now &&
            UserById(db.users, db.tokens[t.value].userId).None? ==>
              r == Step(Err(Unauthorized("User not found")), db)
    ensures var t := PresentedToken(bodyToken, cookieToken);
            Given(t) && t.value in db.tokens && db.tokens[t.value].expiresAt >= now &&
            UserById(db.users, db.tokens[t.value].userId).Some? ==>
              (r.result.Ok? <==> uuid !in db.tokens)
    ensures r.result.Ok? ==>
              var old_ := PresentedToken(bodyToken, cookieToken).value;
              var u := UserById(db.users, db.tokens[old_].userId).value;
              r.result.value == Tokens(sign(Claims(u.id, u.email, u.role, u.companyId)), uuid) &&
              r.db == db.(tokens := db.tokens[uuid := RefreshToken(db.nextId, u.id, uuid, now + RefreshLifetimeMs)] - {old_},
                          nextId := db.nextId + 1)
    ensures r.result.Ok? ==>
              var old_ := PresentedToken(bodyToken, cookieToken).value;
              old_ in db.tokens && db.tokens[old_].expiresAt >= now &&
              old_ !in r.db.tokens &&
              r.result.value.refreshToken == uuid && uuid in r.db.tokens &&
              r.db.tokens[uuid].userId == db.tokens[old_].userId &&
              r.db.tokens[uuid].expiresAt == now + RefreshLifetimeMs &&
              (forall k :: k in db.tokens && k != old_ ==> k in r.db.tokens && r.db.tokens[k] == db.tokens[k]) &&
              (forall k :: k in r.db.tokens ==> k == uuid || k in db.tokens)
    ensures r.result.Err? ==> r.db == db
    ensures r.db.users == db.users && r.db.invites == db.invites
  {
    var t := PresentedToken(bodyToken, cookieToken);
    if !Given(t) then Step(Err(Unauthorized("Refresh token is required")), db)
    else if t.value !in db.tokens then Step(Err(Unauthorized("Invalid or expired refresh token")), db)
    else
      var record := db.tokens[t.value];
      var user := UserById(db.users, record.userId);
      if record.expiresAt < now then Step(Err(Unauthorized("Invalid or expired refresh token")), db)
      else if user.None? then Step(Err(Unauthorized("User not found")), db)
      else
        var g := GenerateTokensSpec(db, user.value, sign, uuid, now);
        if g.result.Err? then g
        else Step(g.result, g.db.(tokens := g.db.tokens - {t.value}))
  }

  /** A refresh keeps every unique column unique. */
  lemma RefreshKeepsDbValid(db: AuthDb, bodyToken: Option<string>, cookieToken: Option<string>,
                            sign: Claims -> string, uuid: string, now: int)
    requires ValidDb(db)
    ensures ValidDb(RefreshSpec(db, bodyToken, cookieToken, sign, uuid, now).db)
  {
    var t := PresentedToken(bodyToken, cookieToken);
    if Given(t) && t.value in db.tokens && db.tokens[t.value].expiresAt >= now &&
       UserById(db.users, db.tokens[t.value].userId).Some? {
      TokensKeepDbValid(db, UserById(db.users, db.tokens[t.value].userId).value, sign, uuid, now);
    }
  }

  /** Rotation: once a refresh succeeded, the token it consumed is refused. */
  lemma RotatedTokenIsRejected(db: AuthDb, token: string, cookie: Option<string>, sign: Claims -> string,
                               uuid1: string, uuid2: string, now1: int, now2: int)
    requires token != ""
    ensures var first := RefreshSpec(db, Some(token), cookie, sign, uuid1, now1);
            first.result.Ok? ==>
              RefreshSpec(first.db, Some(token), cookie, sign, uuid2, now2) ==
              Step(Err(Unauthorized("Invalid or expired refresh token")), first.db)
  {
  }

  // ----- logout -----

  /** The tokens `logout` deletes: with a token, that token if it is the user's; without
      one, every token of the user. */
  predicate LoggedOut(row: RefreshToken, userId: Id, token: Option<string>) {
    row.userId == userId && (Given(token) ==> row.token == token.value)
  }

  function LogoutSpec(db: AuthDb, userId: Id, token: Option<string>): (r: AuthDb)
    ensures r == db.(tokens := r.tokens)
    ensures forall k :: k in r.tokens <==> k in db.tokens && !LoggedOut(db.tokens[k], userId, token)
    ensures forall k :: k in r.tokens ==> r.tokens[k] == db.tokens[k]
    ensures Given(token) ==> forall k :: k in db.tokens && db.tokens[k].userId != userId ==> k in r.tokens
  {
    db.(tokens := map k | k in db.tokens && !LoggedOut(db.tokens[k], userId, token) :: db.tokens[k])
  }

  /** A logout only deletes tokens, so every unique column stays unique. */
  lemma LogoutKeepsDbValid(db: AuthDb, userId: Id, token: Option<string>)
    requires ValidDb(db)
    ensures ValidDb(LogoutSpec(db, userId, token))
  {
  }

  /** After a logout without a token, none of the user's refresh tokens works any more. */
  lemma LogoutEverywhere(db: AuthDb, userId: Id, token: string, sign: Claims -> string, uuid: string, now: int)
    requires token in db.tokens && db.tokens[token].userId == userId && token != ""
    ensures var after := LogoutSpec(db, userId, None);
            RefreshSpec(after, Some(token), None, sign, uuid, now) ==
            Step(Err(Unauthorized("Invalid or expired refresh token")), after)
  {
    var after := LogoutSpec(db, userId, None);
    assert token !in after.tokens;
  }

  // ----- inviteUsers -----

  datatype InviteStatus = Exists | Pending | Sent(inviteId: Id)
  datatype InviteOutcome = InviteOutcome(email: string, status: InviteStatus)

  /** A pending invite for the pair: one exists and has not been accepted. */
  predicate HasPending(invites: seq<Invite>, companyId: Id, email: string) {
    InviteFor(invites, companyId, email).Some? && InviteFor(invites, companyId, email).value.acceptedAt.None?
  }

  /** The decision for one e-mail: `exists` for a registered user, `pending` for an open
      invite, else a new invite valid for 7 days. The insert fails on a unique column: an
      accepted invite for the same pair, or a token already in use. */
  function InviteOne(db: AuthDb, companyId: Id, inviterId: Id, email: string, role: Role, token: string, now: int)
    : (r: Step<InviteOutcome>)
    ensures r.db.users == db.users && r.db.tokens == db.tokens && r.db.companies == db.companies
    ensures UserByEmail(db.users, email).Some? ==> r == Step(Ok(InviteOutcome(email, Exists)), db)
    ensures UserByEmail(db.users, email).None? && HasPending(db.invites, companyId, email) ==>
              r == Step(Ok(InviteOutcome(email, Pending)), db)
    ensures r.result.Err? <==>
              UserByEmail(db.users, email).None? && !HasPending(db.invites, companyId, email) &&
              (InviteFor(db.invites, companyId, email).Some? || InviteByToken(db.invites, token).Some?)
    ensures r.result.Ok? ==> r.result.value.email == email
    ensures UserByEmail(db.users, email).None? && !HasPending(db.invites, companyId, email) &&
            InviteFor(db.invites, companyId, email).None? && InviteByToken(db.invites, token).None? ==>
              r == Step(Ok(InviteOutcome(email, Sent(db.nextId))),
                        db.(invites := db.invites + [Invite(db.nextId, companyId, email, token, role, inviterId,
                                                            now + InviteLifetimeMs, None)],
                            nextId := db.nextId + 1))
    ensures !(r.result.Ok? && r.result.value.status.Sent?) ==> r.db == db
  {
    if UserByEmail(db.users, email).Some? then Step(Ok(InviteOutcome(email, Exists)), db)
    else if HasPending(db.invites, companyId, email) then Step(Ok(InviteOutcome(email, Pending)), db)
    else if InviteFor(db.invites, companyId, email).Some? || InviteByToken(db.invites, token).Some? then
      Step(Err(Conflict(InviteTaken)), db)
    else
      var inv := Invite(db.nextId, companyId, email, token, role, inviterId, now + InviteLifetimeMs, None);
      Step(Ok(InviteOutcome(email, Sent(db.nextId))), db.(invites := db.invites + [inv], nextId := db.nextId + 1))
  }

  /** `inviteUsers`: every e-mail is decided, in list order, the i-th new invite taking
      token `uuid(i)`. A failing insert fails the whole call with the first error, while the
      invites created for the other e-mails stay, as with `Promise.all`. */
  function InviteUsersSpec(db: AuthDb, companyId: Id, inviterId: Id, emails: seq<string>, role: Role,
                           uuid: nat -> string, now: int): (r: Step<seq<InviteOutcome>>)
    ensures r.result.Ok? ==> |r.result.value| == |emails|
    ensures r.result.Ok? ==> forall i :: 0 <= i < |emails| ==> r.result.value[i].email == emails[i]
    ensures r.db.users == db.users && r.db.tokens == db.tokens && r.db.companies == db.companies
    decreases |emails|
  {
    if emails == [] then Step(Ok([]), db)
    else
      var n := |emails| - 1;
      var prev := InviteUsersSpec(db, companyId, inviterId, emails[..n], role, uuid, now);
      var one := InviteOne(prev.db, companyId, inviterId, emails[n], role, uuid(n), now);
      if prev.result.Err? then Step(prev.result, one.db)
      else if one.result.Err? then Step(Err(one.result.error), one.db)
      else Step(Ok(prev.result.value + [one.result.value]), one.db)
  }

  /** Deciding one e-mail keeps the tables well formed: a new invite never repeats a token or a pair. */
  lemma InviteOneKeepsDbValid(db: AuthDb, companyId: Id, inviterId: Id, email: string, role: Role,
                              token: string, now: int)
    requires ValidDb(db)
    ensures ValidDb(InviteOne(db, companyId, inviterId, email, role, token, now).db)
  {
  }

  /** `inviteUsers` keeps the tables well formed, whatever the outcome. */
  lemma {:induction false} InviteUsersKeepsDbValid(db: AuthDb, companyId: Id, inviterId: Id, emails: seq<string>,
                                                   role: Role, uuid: nat -> string, now: int)
    requires ValidDb(db)
    ensures ValidDb(InviteUsersSpec(db, companyId, inviterId, emails, role, uuid, now).db)
    decreases |emails|
  {
    if emails != [] {
      var n := |emails| - 1;
      InviteUsersKeepsDbValid(db, companyId, inviterId, emails[..n], role, uuid, now);
      var prev := InviteUsersSpec(db, companyId, inviterId, emails[..n], role, uuid, now);
      InviteOneKeepsDbValid(prev.db, companyId, inviterId, emails[n], role, uuid(n), now);
    }
  }

  /** One more e-mail adds one decision on the tables the earlier ones left. */
  lemma InviteUsersSnoc(db: AuthDb, companyId: Id, inviterId: Id, emails: seq<string>, role: Role,
                        uuid: nat -> string, now: int, i: nat)
    requires i < |emails|
    ensures var prev := InviteUsersSpec(db, companyId, inviterId, emails[..i], role, uuid, now);
            var one := InviteOne(prev.db, companyId, inviterId, emails[i], role, uuid(i), now);
            InviteUsersSpec(db, companyId, inviterId, emails[..i + 1], role, uuid, now) ==
              if prev.result.Err? then Step(prev.result, one.db)
              else if one.result.Err? then Step(Err(one.result.error), one.db)
              else Step(Ok(prev.result.value + [one.result.value]), one.db)
  {
    assert emails[..i + 1][..i] == emails[..i];
  }

  /** Every e-mail of the list has an account or an open invite for the company. */
  predicate Covered(db: AuthDb, companyId: Id, emails: seq<string>) {
    forall e :: e in emails ==> Known(db, companyId, e)
  }

  /** An e-mail with an account, or with an open invite for the company. */
  predicate Known(db: AuthDb, companyId: Id, email: string) {
    UserByEmail(db.users, email).Some? || HasPending(db.invites, companyId, email)
  }

  /** Adding an invite keeps every open invite findable. */
  lemma PendingStays(invites: seq<Invite>, inv: Invite, companyId: Id, email: string)
    requires HasPending(invites, companyId, email)
    ensures HasPending(invites + [inv], companyId, email)
  {
    InviteForAppend(invites, inv, companyId, email);
  }

  /** One more decision keeps the earlier e-mails covered and covers the new one. */
  lemma InviteOneCovers(db: AuthDb, companyId: Id, inviterId: Id, prefix: seq<string>, email: string,
                        role: Role, token: string, now: int)
    requires Covered(db, companyId, prefix)
    ensures var one := InviteOne(db, companyId, inviterId, email, role, token, now);
            one.result.Ok? ==> Covered(one.db, companyId, prefix + [email])
  {
    var one := InviteOne(db, companyId, inviterId, email, role, token, now);
    if one.result.Ok? {
      if one.result.value.status.Sent? {
        var inv := Invite(db.nextId, companyId, email, token, role, inviterId, now + InviteLifetimeMs, None);
        forall e | e in prefix && UserByEmail(db.users, e).None?
          ensures HasPending(one.db.invites, companyId, e)
        {
          PendingStays(db.invites, inv, companyId, e);
        }
        InviteForAppend(db.invites, inv, companyId, email);
      }
    }
  }

  /** After a successful `inviteUsers`, each of its e-mails has an account or an open invite. */
  lemma {:induction false} InvitedAreCovered(db: AuthDb, companyId: Id, inviterId: Id, emails: seq<string>,
                                             role: Role, uuid: nat -> string, now: int)
    ensures var r := InviteUsersSpec(db, companyId, inviterId, emails, role, uuid, now);
            r.result.Ok? ==> Covered(r.db, companyId, emails)
    decreases |emails|
  {
    if emails != [] {
      var n := |emails| - 1;
      var prev := InviteUsersSpec(db, companyId, inviterId, emails[..n], role, uuid, now);
      InvitedAreCovered(db, companyId, inviterId, emails[..n], role, uuid, now);
      if prev.result.Ok? {
        InviteOneCovers(prev.db, companyId, inviterId, emails[..n], emails[n], role, uuid(n), now);
        FrontAndLast(emails);
      }
    }
  }

  /** An e-mail with an account or an open invite is answered without a write. */
  lemma CoveredIsQuiet(db: AuthDb, companyId: Id, inviterId: Id, email: string, role: Role, token: string, now: int)
    requires Known(db, companyId, email)
    ensures var one := InviteOne(db, companyId, inviterId, email, role, token, now);
            one.result.Ok? && !one.result.value.status.Sent? && one.db == db
  {
  }

  /** On covered e-mails a call sends nothing: every answer is `exists` or `pending` and
      the tables stay as they are. */
  lemma {:induction false} CoveredSendsNothing(db: AuthDb, companyId: Id, inviterId: Id, emails: seq<string>,
                                               role: Role, uuid: nat -> string, now: int)
    requires Covered(db, companyId, emails)
    ensures var r := InviteUsersSpec(db, companyId, inviterId, emails, role, uuid, now);
            r.result.Ok? && r.db == db &&
            forall i :: 0 <= i < |emails| ==> !r.result.value[i].status.Sent?
    decreases |emails|
  {
    if emails != [] {
      var n := |emails| - 1;
      CoveredSendsNothing(db, companyId, inviterId, emails[..n], role, uuid, now);
      var prev := InviteUsersSpec(db, companyId, inviterId, emails[..n], role, uuid, now);
      var one := InviteOne(db, companyId, inviterId, emails[n], role, uuid(n), now);
      CoveredIsQuiet(db, companyId, inviterId, emails[n], role, uuid(n), now);
      var all := prev.result.value + [one.result.value];
      assert InviteUsersSpec(db, companyId, inviterId, emails, role, uuid, now) == Step(Ok(all), db);
      assert forall i :: 0 <= i < n ==> all[i] == prev.result.value[i];
    }
  }

  /** Re-sending the same invitations creates nothing: the second call answers `exists` or
      `pending` for every e-mail. */
  lemma ReinviteSendsNothing(db: AuthDb, companyId: Id, inviterId: Id, emails: seq<string>, role: Role,
                             uuid1: nat -> string, uuid2: nat -> string, now1: int, now2: int)
    ensures var first := InviteUsersSpec(db, companyId, inviterId, emails, role, uuid1, now1);
            var second := InviteUsersSpec(first.db, companyId, inviterId, emails, role, uuid2, now2);
            first.result.Ok? ==>
              second.result.Ok? && second.db == first.db &&
              forall i :: 0 <= i < |emails| ==> !second.result.value[i].status.Sent?
  {
    InvitedAreCovered(db, companyId, inviterId, emails, role, uuid1, now1);
    var first := InviteUsersSpec(db, companyId, inviterId, emails, role, uuid1, now1);
    if first.result.Ok? {
      CoveredSendsNothing(first.db, companyId, inviterId, emails, role, uuid2, now2);
    }
  }

  // ----- acceptInvite -----

  /** `acceptInvite`, checks in the source's order: unknown token, expired, already
      accepted, company gone, e-mail registered. Then the user is created with the invite's
      company, e-mail and role and the invite is marked accepted, together; then tokens. */
  function AcceptInviteSpec(db: AuthDb, token: string, name: string, hashed: string,
                            sign: Claims -> string, uuid: string, now: int): (r: Step<Session>)
    ensures InviteByToken(db.invites, token).None? ==> r == Step(Err(NotFound("Invalid invite token")), db)
    ensures var inv := InviteByToken(db.invites, token);
            inv.Some? && inv.value.expiresAt < now ==>
              r == Step(Err(BadRequest("Invite token has expired")), db)
    ensures var inv := InviteByToken(db.invites, token);
            inv.Some? && inv.value.expiresAt >= now && inv.value.acceptedAt.Some? ==>
              r == Step(Err(BadRequest("Invite has already been accepted")), db)
    ensures var inv := InviteByToken(db.invites, token);
            inv.Some? && inv.value.expiresAt >= now && inv.value.acceptedAt.None? && inv.value.companyId !in db.companies ==>
              r == Step(Err(NotFound("Company not found")), db)
    ensures var inv := InviteByToken(db.invites, token);
            inv.Some? && inv.value.expiresAt >= now && inv.value.acceptedAt.None? && inv.value.companyId in db.companies &&
            UserByEmail(db.users, inv.value.email).Some? ==>
              r == Step(Err(BadRequest("User already exists")), db)
    ensures var inv := InviteByToken(db.invites, token);
            inv.Some? && inv.value.expiresAt >= now && inv.value.acceptedAt.None? && inv.value.companyId in db.companies &&
            UserByEmail(db.users, inv.value.email).None? ==>
              r == JoinCompany(db, inv.value, name, hashed, sign, uuid, now)
    ensures r.result.Ok? ==>
              var inv := InviteByToken(db.invites, token).value;
              inv.expiresAt >= now && inv.acceptedAt.None? &&
              r.result.value.user == UserView(db.nextId, name, inv.email, inv.role, inv.companyId) &&
              r.db.users == db.users + [User(db.nextId, inv.companyId, inv.email, name, Some(hashed), inv.role, true)] &&
              InviteByToken(r.db.invites, token) == Some(inv.(acceptedAt := Some(now)))
    ensures r.db.companies == db.companies
  {
    var inv := InviteByToken(db.invites, token);
    if inv.None? then Step(Err(NotFound("Invalid invite token")), db)
    else if inv.value.expiresAt < now then Step(Err(BadRequest("Invite token has expired")), db)
    else if inv.value.acceptedAt.Some? then Step(Err(BadRequest("Invite has already been accepted")), db)
    else if inv.value.companyId !in db.companies then Step(Err(NotFound("Company not found")), db)
    else if UserByEmail(db.users, inv.value.email).Some? then Step(Err(BadRequest("User already exists")), db)
    else
      MarkAcceptedByToken(db.invites, inv.value.id, now, token);
      JoinCompany(db, inv.value, name, hashed, sign, uuid, now)
  }

  /** The transaction of `acceptInvite`: the invited user is created with the invite's
      company, e-mail and role, the invite is marked accepted, and the tokens are issued. */
  function JoinCompany(db: AuthDb, inv: Invite, name: string, hashed: string,
                       sign: Claims -> string, uuid: string, now: int): (r: Step<Session>)
    // the user and the accepted mark are committed before the tokens are issued, so they
    // stay even when issuing fails
    ensures r.db.users == db.users + [User(db.nextId, inv.companyId, inv.email, name, Some(hashed), inv.role, true)]
    ensures r.db.invites == MarkAccepted(db.invites, inv.id, now)
    ensures r.db.companies == db.companies
    ensures r.result.Ok? <==> uuid !in db.tokens
    ensures r.db.tokens == if uuid in db.tokens then db.tokens
                           else db.tokens[uuid := RefreshToken(db.nextId + 1, db.nextId, uuid, now + RefreshLifetimeMs)]
    ensures r.db.nextId == if uuid in db.tokens then db.nextId + 1 else db.nextId + 2
    ensures r.result.Ok? ==>
              r.result.value.user == UserView(db.nextId, name, inv.email, inv.role, inv.companyId) &&
              r.result.value.tokens == Tokens(sign(Claims(db.nextId, inv.email, inv.role, inv.companyId)), uuid)
  {
    var user := User(db.nextId, inv.companyId, inv.email, name, Some(hashed), inv.role, true);
    var db1 := db.(users := db.users + [user], invites := MarkAccepted(db.invites, inv.id, now), nextId := db.nextId + 1);
    var t := GenerateTokensSpec(db1, user, sign, uuid, now);
    if t.result.Err? then Step(Err(t.result.error), t.db)
    else Step(Ok(Session(View(user), t.result.value)), t.db)
  }

  /** `invite.update({ where: { id }, data: { acceptedAt } })`. */
  function MarkAccepted(invites: seq<Invite>, id: Id, now: int): (r: seq<Invite>)
    ensures |r| == |invites|
    ensures forall i :: 0 <= i < |invites| ==>
              r[i] == if invites[i].id == id then invites[i].(acceptedAt := Some(now)) else invites[i]
  {
    if invites == [] then []
    else [if invites[0].id == id then invites[0].(acceptedAt := Some(now)) else invites[0]] + MarkAccepted(invites[1..], id, now)
  }

  /** Marking an invite accepted is seen through the token lookup, and nothing else is. */
  lemma {:induction false} MarkAcceptedByToken(invites: seq<Invite>, id: Id, now: int, token: string)
    ensures var f := InviteByToken(invites, token);
            InviteByToken(MarkAccepted(invites, id, now), token) ==
              if f.Some? && f.value.id == id then Some(f.value.(acceptedAt := Some(now))) else f
  {
    if invites != [] {
      assert MarkAccepted(invites, id, now)[1..] == MarkAccepted(invites[1..], id, now);
      MarkAcceptedByToken(invites[1..], id, now, token);
    }
  }

  /** Joining a company keeps the tables well formed when no account has the invited e-mail. */
  lemma JoinKeepsDbValid(db: AuthDb, inv: Invite, name: string, hashed: string,
                         sign: Claims -> string, uuid: string, now: int)
    requires ValidDb(db) && UserByEmail(db.users, inv.email).None?
    ensures ValidDb(JoinCompany(db, inv, name, hashed, sign, uuid, now).db)
  {
    var user := User(db.nextId, inv.companyId, inv.email, name, Some(hashed), inv.role, true);
    var db1 := db.(users := db.users + [user], invites := MarkAccepted(db.invites, inv.id, now), nextId := db.nextId + 1);
    assert ValidDb(db1);
    TokensKeepDbValid(db1, user, sign, uuid, now);
  }

  /** `acceptInvite` keeps the tables well formed. */
  lemma AcceptInviteKeepsDbValid(db: AuthDb, token: string, name: string, hashed: string,
                                 sign: Claims -> string, uuid: string, now: int)
    requires ValidDb(db)
    ensures ValidDb(AcceptInviteSpec(db, token, name, hashed, sign, uuid, now).db)
  {
    var inv := InviteByToken(db.invites, token);
    if inv.Some? && UserByEmail(db.users, inv.value.email).None? {
      JoinKeepsDbValid(db, inv.value, name, hashed, sign, uuid, now);
    }
  }

  /** An invite works once: presenting its token again (before it expires) is refused. */
  lemma InviteIsSingleUse(db: AuthDb, token: string, n1: string, n2: string, h1: string, h2: string,
                          sign: Claims -> string, u1: string, u2: string, now1: int, now2: int)
    requires InviteByToken(db.invites, token).Some? && now2 <= InviteByToken(db.invites, token).value.expiresAt
    ensures var first := AcceptInviteSpec(db, token, n1, h1, sign, u1, now1);
            first.result.Ok? ==>
              AcceptInviteSpec(first.db, token, n2, h2, sign, u2, now2) ==
              Step(Err(BadRequest("Invite has already been accepted")), first.db)
  {
  }

  /** The authentication tables. */
  class AuthStore {
    var companies: map<Id, Company>
    var users: seq<User>
    var tokens: map<string, RefreshToken>
    var invites: seq<Invite>
    var nextId: Id

    function Db(): AuthDb
      reads this
    {
      AuthDb(companies, users, tokens, invites, nextId)
    }

    constructor ()
      ensures Db() == AuthDb(map[], [], map[], [], 0)
    {
      companies := map[];
      users := [];
      tokens := map[];
      invites := [];
      nextId := 0;
    }

    method GenerateTokens(user: User, sign: Claims -> string, uuid: string, now: int) returns (r: Result<Tokens>)
      modifies this
      ensures Step(r, Db()) == GenerateTokensSpec(old(Db()), user, sign, uuid, now)
    {
      if uuid in tokens {
        return Err(Conflict(TokenTaken));
      }
      tokens := tokens[uuid := RefreshToken(nextId, user.id, uuid, now + RefreshLifetimeMs)];
      nextId := nextId + 1;
      r := Ok(Tokens(sign(Claims(user.id, user.email, user.role, user.companyId)), uuid));
    }

    method Signup(dto: SignupDto, hashed: string, sign: Claims -> string, uuid: string, now: int)
      returns (r: Result<SignupResult>)
      modifies this
      ensures Step(r, Db()) == SignupSpec(old(Db()), dto, hashed, sign, uuid, now)
    {
      if UserByEmail(users, dto.email).Some? {
        return Err(BadRequest("User with this email already exists"));
      }
      var company := TrialCompany(nextId, dto.companyName, now);
      var user := User(nextId + 1, company.id, dto.email, dto.name, Some(hashed), ADMIN, true);
      companies := companies[company.id := company];
      users := users + [user];
      nextId := nextId + 2;
      var t := GenerateTokens(user, sign, uuid, now);
      if t.Err? {
        return Err(t.error);
      }
      r := Ok(SignupResult(company.id, SignupUser(user.id, user.name, user.email, user.role), t.value));
    }

    method Login(email: string, password: string, compare: (string, string) -> bool,
                 sign: Claims -> string, uuid: string, now: int) returns (r: Result<Session>)
      modifies this
      ensures Step(r, Db()) == LoginSpec(old(Db()), email, password, compare, sign, uuid, now)
    {
      var u := UserByEmail(users, email);
      if u.None? || !Given(u.value.password) {
        return Err(Unauthorized("Invalid credentials"));
      }
      if !compare(password, u.value.password.value) {
        return Err(Unauthorized("Invalid credentials"));
      }
      if !u.value.isActive {
        return Err(Unauthorized("Account is deactivated"));
      }
      var t := GenerateTokens(u.value, sign, uuid, now);
      if t.Err? {
        return Err(t.error);
      }
      r := Ok(Session(View(u.value), t.value));
    }

    method Refresh(bodyToken: Option<string>, cookieToken: Option<string>, sign: Claims -> string, uuid: string, now: int)
      returns (r: Result<Tokens>)
      modifies this
      ensures Step(r, Db()) == RefreshSpec(old(Db()), bodyToken, cookieToken, sign, uuid, now)
    {
      var token := PresentedToken(bodyToken, cookieToken);
      if !Given(token) {
        return Err(Unauthorized("Refresh token is required"));
      }
      if token.value !in tokens {
        return Err(Unauthorized("Invalid or expired refresh token"));
      }
      var record := tokens[token.value];
      var user := UserById(users, record.userId);
      if record.expiresAt < now {
        return Err(Unauthorized("Invalid or expired refresh token"));
      }
      if user.None? {
        return Err(Unauthorized("User not found"));
      }
      r := GenerateTokens(user.value, sign, uuid, now);
      if r.Ok? {
        tokens := tokens - {token.value};
      }
    }

    method Logout(userId: Id, token: Option<string>) returns (message: string)
      modifies this
      ensures Db() == LogoutSpec(old(Db()), userId, token)
      ensures message == "Logged out successfully"
    {
      tokens := map k | k in tokens && !LoggedOut(tokens[k], userId, token) :: tokens[k];
      message := "Logged out successfully";
    }

    /** One e-mail of `inviteUsers`. */
    method InviteNext(companyId: Id, inviterId: Id, email: string, role: Role, token: string, now: int)
      returns (one: Step<InviteOutcome>)
      modifies this
      ensures one == InviteOne(old(Db()), companyId, inviterId, email, role, token, now)
      ensures Db() == one.db
    {
      one := InviteOne(Db(), companyId, inviterId, email, role, token, now);
      if one.result.Ok? && one.result.value.status.Sent? {
        invites := invites + [Invite(nextId, companyId, email, token, role, inviterId, now + InviteLifetimeMs, None)];
        nextId := nextId + 1;
      }
    }

    method InviteUsers(companyId: Id, inviterId: Id, emails: seq<string>, role: Role, uuid: nat -> string, now: int)
      returns (r: Result<seq<InviteOutcome>>)
      modifies this
      ensures Step(r, Db()) == InviteUsersSpec(old(Db()), companyId, inviterId, emails, role, uuid, now)
    {
      ghost var db0 := Db();
      r := Ok([]);
      var i := 0;
      while i < |emails|
        invariant 0 <= i <= |emails|
        invariant Step(r, Db()) == InviteUsersSpec(db0, companyId, inviterId, emails[..i], role, uuid, now)
      {
        InviteUsersSnoc(db0, companyId, inviterId, emails, role, uuid, now, i);
        var one := InviteNext(companyId, inviterId, emails[i], role, uuid(i), now);
        if r.Ok? {
          r := if one.result.Err? then Err(one.result.error) else Ok(r.value + [one.result.value]);
        }
        i := i + 1;
      }
      assert emails[..i] == emails;
    }

    /** The transaction of `acceptInvite` and the tokens issued after it. */
    method Join(inv: Invite, name: string, hashed: string, sign: Claims -> string, uuid: string, now: int)
      returns (r: Result<Session>)
      modifies this
      ensures Step(r, Db()) == JoinCompany(old(Db()), inv, name, hashed, sign, uuid, now)
    {
      ghost var db0 := Db();
      var user := User(nextId, inv.companyId, inv.email, name, Some(hashed), inv.role, true);
      users := users + [user];
      invites := MarkAccepted(invites, inv.id, now);
      nextId := nextId + 1;
      ghost var db1 := Db();
      assert db1 == db0.(users := db0.users + [user], invites := MarkAccepted(db0.invites, inv.id, now),
                         nextId := db0.nextId + 1);
      var t := GenerateTokens(user, sign, uuid, now);
      r := if t.Err? then Err(t.error) else Ok(Session(View(user), t.value));
    }

    method AcceptInvite(token: string, name: string, hashed: string, sign: Claims -> string, uuid: string, now: int)
      returns (r: Result<Session>)
      modifies this
      ensures Step(r, Db()) == AcceptInviteSpec(old(Db()), token, name, hashed, sign, uuid, now)
    {
      var inv := InviteByToken(invites, token);
      if inv.None? {
        return Err(NotFound("Invalid invite token"));
      }
      if inv.value.expiresAt < now {
        return Err(BadRequest("Invite token has expired"));
      }
      if inv.value.acceptedAt.Some? {
        return Err(BadRequest("Invite has already been accepted"));
      }
      if inv.value.companyId !in companies {
        return Err(NotFound("Company not found"));
      }
      if UserByEmail(users, inv.value.email).Some? {
        return Err(BadRequest("User already exists"));
      }
      r := Join(inv.value, name, hashed, sign, uuid, now);
      MarkAcceptedByToken(old(invites), inv.value.id, now, token);
    }
  }
}
