/** Accounts: registration, login, token verification and the password-reset flow. */
module AccountRules {
  import opened Common
  import opened Text
  import opened Auth
  import opened Documents
  import opened Routes
  import Properties

  /** Leading white space never reaches the store. */
  lemma PaddingIgnored(s: string)
    ensures Normalize(" " + s) == Normalize(s)
  {
    assert (" " + s)[1..] == s;
  }

  // ---------------------------------------------------------------- registration

  lemma RegisterOfMissingField(db: Db, body: RegisterBody, digest: string, now: Time)
    requires Falsy(body.username) || Falsy(body.email) || Falsy(body.password)
    ensures Register(db, body, digest, now) == Outcome(db, Reply(400, Note(MissingRegistrationFields)))
  {
  }

  /** A successful registration adds exactly one account, under a fresh id, holding the
      normalised name and email, the digest and no reset token, and a zeroed report for it. */
  lemma RegisterCreatesOneAccount(db: Db, body: RegisterBody, digest: string, now: Time)
    requires Valid(db) && Register(db, body, digest, now).reply.status == 201
    ensures var o := Register(db, body, digest, now);
      var uid := db.nextUserId;
      && uid !in db.users && uid !in db.reports
      && o.db.users.Keys == db.users.Keys + {uid} && |o.db.users| == |db.users| + 1
      && (forall u :: u in db.users ==> o.db.users[u] == db.users[u])
      && o.db.users[uid].username == Normalize(body.username.value)
      && o.db.users[uid].email == Normalize(body.email.value)
      && o.db.users[uid].passwordHash == digest && o.db.users[uid].resetToken.None?
      && o.db.reports == db.reports[uid := ZeroReport]
      && o.db.treasures == db.treasures && o.db.visitors == db.visitors && o.db.stats == db.stats
  {
    var uid := db.nextUserId;
    var b := body;
    if !Saves(db, body) {
      Properties.RefusedRegisterChangesNothing(db, body, digest, now);
    }
    var name := Normalize(b.username.value);
    var email := Normalize(b.email.value);
    Properties.Enrolled(db, body, digest, now);
    var user := User(name, email, digest, b.gender, b.ageRange, b.referral, now, None, None);
    var after := Register(db, body, digest, now).db;
    assert after.users == db.users[uid := user] && after.reports == db.reports[uid := ZeroReport];
    assert uid !in db.users && uid !in db.reports;
    InsertFresh(db.users, uid, user);
  }

  lemma InsertFresh<K, V>(m: map<K, V>, k: K, v: V)
    requires k !in m
    ensures m[k := v].Keys == m.Keys + {k} && |m[k := v]| == |m| + 1
    ensures forall j :: j in m ==> m[k := v][j] == m[j]
  {
  }

  /** Registering again with a name or email that normalises to a stored one is UserExists (400)
      and changes nothing. */
  lemma RegisterTwiceRefused(db: Db, first: RegisterBody, second: RegisterBody, d1: string, d2: string, t1: Time, t2: Time)
    requires Valid(db) && Register(db, first, d1, t1).reply.status == 201
    requires !Falsy(second.username) && !Falsy(second.email) && !Falsy(second.password)
    requires Normalize(second.username.value) == Normalize(first.username.value)
          || Normalize(second.email.value) == Normalize(first.email.value)
    ensures var after := Register(db, first, d1, t1).db;
      Register(after, second, d2, t2) == Outcome(after, Reply(400, Note(UserExists)))
  {
    var after := Register(db, first, d1, t1).db;
    RegisterCreatesOneAccount(db, first, d1, t1);
    assert db.nextUserId in after.users;
  }

  /** The pre-check compares the values the store would hold, so a copy of a stored name
      padded with white space is UserExists (400) like the name itself, whatever the email. */
  lemma PaddedDuplicateRefused(db: Db, uid: UserId, name: string, second: RegisterBody, digest: string, now: Time)
    requires uid in db.users && db.users[uid].username == Normalize(name)
    requires second.username == Some(" " + name) && !Falsy(second.email) && !Falsy(second.password)
    ensures Register(db, second, digest, now) == Outcome(db, Reply(400, Note(UserExists)))
  {
    PaddingIgnored(name);
    assert db.users[uid].username == Normalize(second.username.value);
  }

  /** A name or email that normalises to a stored one is UserExists (400), and nothing is saved. */
  lemma RegisterOfTaken(db: Db, body: RegisterBody, digest: string, now: Time)
    requires !Falsy(body.username) && !Falsy(body.email) && !Falsy(body.password)
    requires Taken(db.users, body.username.value, body.email.value)
    ensures Register(db, body, digest, now) == Outcome(db, Reply(400, Note(UserExists)))
  {
  }

  /** Past the pre-check, a document the schema refuses (an empty trimmed value, a value outside
      an enum) is a 500, and nothing is saved. */
  lemma RegisterRefusedByStore(db: Db, body: RegisterBody, digest: string, now: Time)
    requires !Falsy(body.username) && !Falsy(body.email) && !Falsy(body.password)
    requires !Taken(db.users, body.username.value, body.email.value)
    requires var name := Normalize(body.username.value); var email := Normalize(body.email.value);
      name == "" || email == "" || !InEnum(body.gender, Genders) || !InEnum(body.ageRange, AgeRanges)
    ensures Register(db, body, digest, now) == Outcome(db, Reply(500, Note(ServerFailure)))
  {
  }


  // ---------------------------------------------------------------- login and verify

  /** Login finds the account by its name as the store holds it (trimmed and lowercased); the right password yields a token for its id
      and stored name, the wrong one InvalidCredentials (401) with nothing changed. */
  lemma LoginOfAccount(db: Db, uid: UserId, username: string, password: string,
                       matches: (string, string) -> bool, sign: Claims -> string, now: Time)
    requires Valid(db) && uid in db.users && db.users[uid].username == Normalize(username)
    requires username != "" && password != ""
    ensures var o := Login(db, Some(username), Some(password), matches, sign, now);
      var name := db.users[uid].username;
      (matches(password, db.users[uid].passwordHash) ==>
         o.reply == Reply(200, TokenIssued(sign(Claims(Some(uid), name)), name))
         && o.db.users == db.users && o.db.reports.Keys == db.reports.Keys)
      && (!matches(password, db.users[uid].passwordHash) ==> o == Outcome(db, Reply(401, Note(InvalidCredentials))))
  {
  }

  /** An unknown name gets the same 401 as a wrong password. */
  lemma LoginOfUnknown(db: Db, username: string, password: string,
                       matches: (string, string) -> bool, sign: Claims -> string, now: Time)
    requires username != "" && password != ""
    requires forall u :: u in db.users ==> db.users[u].username != Normalize(username)
    ensures Login(db, Some(username), Some(password), matches, sign, now) == Outcome(db, Reply(401, Note(InvalidCredentials)))
  {
  }

  /** Register, log in with the name in any letter case and padding, then present the issued token as a
      bearer token: verification names the registered account. */
  lemma {:induction false} RegisterLoginVerify(db: Db, env: Env, body: RegisterBody, digest: string,
                                               loginName: string, t1: Time, t2: Time)
    requires Valid(db) && Register(db, body, digest, t1).reply.status == 201
    requires Normalize(loginName) == Normalize(body.username.value) && loginName != ""
    requires env.matches(body.password.value, digest)
    requires var c := Claims(Some(db.nextUserId), Normalize(body.username.value));
      env.sign(c) != "" && env.verify(env.sign(c)) == Some(c)
    ensures var registered := Register(db, body, digest, t1).db;
      var name := Normalize(body.username.value);
      var token := env.sign(Claims(Some(db.nextUserId), name));
      var login := Login(registered, Some(loginName), body.password, env.matches, env.sign, t2);
      && login.reply == Reply(200, TokenIssued(token, name))
      && VerifyToken(login.db, Some(Scheme + token), env.verify).reply == Reply(200, Account(name))
  {
    var registered := Register(db, body, digest, t1).db;
    var uid := db.nextUserId;
    var name := Normalize(body.username.value);
    RegisterCreatesOneAccount(db, body, digest, t1);
    Properties.RegisterKeepsValid(db, body, digest, t1);
    LoginOfAccount(registered, uid, loginName, body.password.value, env.matches, env.sign, t2);
    var login := Login(registered, Some(loginName), body.password, env.matches, env.sign, t2);
    VerifyOfBearer(login.db, env.verify, env.sign(Claims(Some(uid), name)), uid, name);
  }

  /** A bearer token that verifies to an existing account's id names that account. */
  lemma VerifyOfBearer(db: Db, verify: string -> Option<Claims>, token: string, uid: UserId, name: string)
    requires token != "" && verify(token) == Some(Claims(Some(uid), name))
    requires uid in db.users && db.users[uid].username == name
    ensures VerifyToken(db, Some(Scheme + token), verify).reply == Reply(200, Account(name))
  {
    BearerPrefixStripped(token);
  }

  // ---------------------------------------------------------------- password reset

  /** A reset request for a stored email saves a fresh token that expires one hour later on
      that account and on no other; the reply is 200 when the mail went out, else 500. */
  lemma ForgotSetsToken(db: Db, uid: UserId, email: string, token: string, now: Time, mailSent: bool)
    requires Valid(db) && uid in db.users && db.users[uid].email == Normalize(email)
    ensures var o := ForgotPassword(db, Some(email), token, now, mailSent);
      && o.db == db.(users := db.users[uid := db.users[uid].(resetToken := Some(token), resetExpires := Some(now + ResetTokenLifetime))])
      && o.reply == (if mailSent then Reply(200, Note(ResetLinkMaybeSent)) else Reply(500, Note(ServerFailure)))
  {
    EmailFindsOwner(db.users, uid, Normalize(email));
    ForgotOfFound(db, email, uid, token, now, mailSent);
  }

  /** Emails are unique, so the lookup finds the one account that stores it. */
  lemma EmailFindsOwner(users: map<UserId, User>, uid: UserId, email: string)
    requires UniqueAccounts(users) && uid in users && users[uid].email == email
    ensures FindByEmail(users, email) == Some(uid)
  {
    var found := FindByEmail(users, email);
    assert found.Some? && users[found.value].email == users[uid].email;
  }

  /** The route's value once the lookup has found `uid`. */
  lemma ForgotOfFound(db: Db, email: string, uid: UserId, token: string, now: Time, mailSent: bool)
    requires FindByEmail(db.users, Normalize(email)) == Some(uid)
    ensures var o := ForgotPassword(db, Some(email), token, now, mailSent);
      && o.db == db.(users := db.users[uid := db.users[uid].(resetToken := Some(token), resetExpires := Some(now + ResetTokenLifetime))])
      && o.reply == (if mailSent then Reply(200, Note(ResetLinkMaybeSent)) else Reply(500, Note(ServerFailure)))
  {
  }

  /** The reply does not reveal whether an email is registered: an unknown one gets the same
      200 as a known one whose mail went out, and changes nothing. */
  lemma ForgotIsUninformative(db: Db, email: string, token: string, now: Time, mailSent: bool)
    requires forall u :: u in db.users ==> db.users[u].email != Normalize(email)
    ensures ForgotPassword(db, Some(email), token, now, mailSent) == Outcome(db, Reply(200, Note(ResetLinkMaybeSent)))
  {
  }

  /** The reset succeeds exactly when some account holds the token unexpired and a new password
      is given; the holder's password becomes the digest and its token is cleared. */
  lemma ResetSucceedsIff(db: Db, token: string, password: Option<string>, digest: string, now: Time)
    requires Valid(db)
    ensures var o := ResetPassword(db, token, password, digest, now);
      && (o.reply.status == 200 <==> (exists u :: u in db.users && HoldsLiveToken(db.users[u], token, now)) && !Falsy(password))
      && (o.reply.status == 200 ==> exists u :: (u in db.users && HoldsLiveToken(db.users[u], token, now)
            && o.db == db.(users := db.users[u := db.users[u].(passwordHash := digest, resetToken := None, resetExpires := None)])))
      && (o.reply.status != 200 ==> o.db == db)
  {
  }

  /** A reset token works once: after a successful reset the same token is InvalidResetToken (400). */
  lemma {:induction false} ResetIsSingleUse(db: Db, token: string, p1: Option<string>, p2: Option<string>,
                                            d1: string, d2: string, t1: Time, t2: Time)
    requires Valid(db) && ResetPassword(db, token, p1, d1, t1).reply.status == 200
    ensures var after := ResetPassword(db, token, p1, d1, t1).db;
      ResetPassword(after, token, p2, d2, t2) == Outcome(after, Reply(400, Note(InvalidResetToken)))
  {
    var after := ResetPassword(db, token, p1, d1, t1).db;
    ResetSucceedsIff(db, token, p1, d1, t1);
    var uid :| uid in db.users && HoldsLiveToken(db.users[uid], token, t1)
      && after == db.(users := db.users[uid := db.users[uid].(passwordHash := d1, resetToken := None, resetExpires := None)]);
    forall v | v in after.users
      ensures !HoldsLiveToken(after.users[v], token, t2)
    {
      if v != uid {
        assert db.users[uid].resetToken.Some?;
      }
    }
  }

  /** The token of a reset request served at `t0` is accepted exactly before `t0 + 3600000`. */
  lemma {:induction false} ResetTokenExpires(db: Db, uid: UserId, email: string, token: string, mailSent: bool,
                                             password: string, digest: string, t0: Time, t1: Time)
    requires Valid(db) && uid in db.users && db.users[uid].email == Normalize(email)
    requires FreshToken(db.users, token) && password != ""
    ensures var requested := ForgotPassword(db, Some(email), token, t0, mailSent).db;
      ResetPassword(requested, token, Some(password), digest, t1).reply.status == 200 <==> t1 < t0 + ResetTokenLifetime
  {
    ForgotSetsToken(db, uid, email, token, t0, mailSent);
    Properties.ForgotKeepsValid(db, Some(email), token, t0, mailSent);
    ResetOfIssuedToken(db, uid, ForgotPassword(db, Some(email), token, t0, mailSent).db, token, password, digest, t0, t1);
  }

  /** Once `uid` alone holds the fresh token issued at `t0`, a reset with it succeeds exactly
      before `t0 + 3600000`. */
  lemma ResetOfIssuedToken(db: Db, uid: UserId, requested: Db, token: string, password: string, digest: string,
                           t0: Time, t1: Time)
    requires uid in db.users && FreshToken(db.users, token) && password != "" && Valid(requested)
    requires requested == db.(users := db.users[uid := db.users[uid].(resetToken := Some(token),
                                                                       resetExpires := Some(t0 + ResetTokenLifetime))])
    ensures ResetPassword(requested, token, Some(password), digest, t1).reply.status == 200 <==> t1 < t0 + ResetTokenLifetime
  {
    ResetSucceedsIff(requested, token, Some(password), digest, t1);
    assert forall v :: v in requested.users && v != uid ==> requested.users[v] == db.users[v];
    assert HoldsLiveToken(requested.users[uid], token, t1) <==> t1 < t0 + ResetTokenLifetime;
  }
}
