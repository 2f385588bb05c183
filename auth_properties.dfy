/**
 Properties of the handlers in `AuthController` that relate several calls:
 a passcode is consumed by a successful verification, a resend invalidates
 the code it replaces, an issued code registers the account that can then
 sign in, and any sequence of requests keeps the stores' invariant.
 */
module AuthProperties {
  import opened Decimal
  import opened UserModel
  import opened OtpModel
  import opened AuthController

  /** After a successful verification the same identifier has no pending
      record, so any further verification, with any code, is refused. */
  lemma SecondVerifyRejected(s: Stores, hash: string -> string, id: string, code: string,
                             password: string, now: nat, draw: OtpDraw,
                             code': string, password': string, now': nat, draw': OtpDraw)
    requires VerifyStep(s, hash, id, code, password, now, draw).outcome.Registered?
    ensures var t := VerifyStep(s, hash, id, code, password, now, draw);
      VerifyStep(t.stores, hash, id, code', password', now', draw') == Step(t.stores, InvalidOtp)
  {
  }

  /** A resend replaces the pending code even while it is still valid: within
      the new window the old code is refused, unless the new draw happens to
      be the single one of the OtpSpan draws that reproduces it. (For the
      empty identifier see `EmptyIdentifierNeverRegisters`.) */
  lemma {:induction false} ResendInvalidatesOldCode(s: Stores, hash: string -> string, id: string,
                                                    now: nat, draw: OtpDraw,
                                                    password: string, now': nat, draw': OtpDraw)
    requires Consistent(s) && id in s.pending && IdentifierValid(id)
    requires now <= now' <= now + ValidityMs
    ensures OtpBase <= ValueOf(s.pending[id].code) < OtpBase + OtpSpan
    ensures var oldCode := s.pending[id].code;
      var t := ResendStep(s, id, now, draw);
      var verdict := VerifyStep(t.stores, hash, id, oldCode, password, now', draw').outcome;
      verdict.InvalidOtp? <==> draw != ValueOf(oldCode) - OtpBase
  {
    var oldCode := s.pending[id].code;
    OtpCodeOfDraw(oldCode);
    OtpInjective(draw, ValueOf(oldCode) - OtpBase);
  }

  /** Signing up an unregistered identifier and verifying, within five
      minutes, the code that was issued creates the account with the default
      role and removes the pending record; the same password then signs in,
      with tokens carrying the identifier and the default role. */
  lemma RegistrationRoundTrip(s: Stores, hash: string -> string, id: string, password: string,
                              now: nat, draw: OtpDraw, now': nat, draw': OtpDraw)
    requires id !in s.users && IdentifierValid(id)
    requires now <= now' <= now + ValidityMs
    ensures var t1 := SignupStep(s, id, now, draw);
      && t1.outcome == OtpSent
      && var t2 := VerifyStep(t1.stores, hash, id, GenerateOtp(draw), password, now', draw');
      && t2.outcome == Registered
      && id in t2.stores.users && id !in t2.stores.pending
      && var r := Signin(t2.stores, hash, id, password);
      && r.LoggedIn?
      && r.accessToken.claims == Claims(id, RoleUser)
      && r.refreshToken.claims == Claims(id, RoleUser)
  {
  }

  /** Once an account is created, signin accepts exactly the passwords whose
      hash equals that of the password given at verification, and refuses
      every other one as an invalid password. */
  lemma SigninAcceptsRegisteredPassword(s: Stores, hash: string -> string, id: string, code: string,
                                        password: string, now: nat, draw: OtpDraw,
                                        attempt: string)
    requires VerifyStep(s, hash, id, code, password, now, draw).outcome.Registered?
    ensures var t := VerifyStep(s, hash, id, code, password, now, draw);
      && (Signin(t.stores, hash, id, attempt).LoggedIn? <==> hash(attempt) == hash(password))
      && (Signin(t.stores, hash, id, attempt).InvalidPassword? <==> hash(attempt) != hash(password))
  {
  }

  /** An expired verification renews the record, and the renewed code, sent
      out-of-band, registers the account within the next five minutes. */
  lemma ExpiredThenRenewedCodeRegisters(s: Stores, hash: string -> string, id: string, code: string,
                                        password: string, now: nat, draw: OtpDraw,
                                        now': nat, draw': OtpDraw)
    requires Consistent(s) && IdentifierValid(id)
    requires id in s.pending && s.pending[id].expiresAt < now
    requires now <= now' <= now + ValidityMs
    ensures var t1 := VerifyStep(s, hash, id, code, password, now, draw);
      && t1.outcome == OtpExpired
      && t1.stores.users == s.users
      && VerifyStep(t1.stores, hash, id, GenerateOtp(draw), password, now', draw').outcome == Registered
  {
  }

  /** The empty identifier passes `signup`, whose upsert is not validated,
      but every later `save()` of its record fails validation: the issued code
      never registers an account, at whatever later time it is submitted, an
      expired record is never renewed and a resend changes nothing. */
  lemma EmptyIdentifierNeverRegisters(s: Stores, hash: string -> string, password: string,
                                      now: nat, draw: OtpDraw, later: nat, draw': OtpDraw)
    requires "" !in s.users
    ensures var t1 := SignupStep(s, "", now, draw);
      && t1.outcome == OtpSent
      && "" in t1.stores.pending
      && VerifyStep(t1.stores, hash, "", GenerateOtp(draw), password, later, draw')
         == Step(t1.stores, VerifyValidationError)
      && ResendStep(t1.stores, "", later, draw') == Step(t1.stores, ResendValidationError)
  {
  }

  // ---------------------------------------------------------------------
  // Any sequence of requests

  /** One request to one of the four handlers, with the instant it is handled
      at and, for the handlers that may issue a passcode, the random draw. */
  datatype Request =
    | SignupReq(id: string, now: nat, draw: OtpDraw)
    | VerifyReq(id: string, code: string, password: string, now: nat, draw: OtpDraw)
    | ResendReq(id: string, now: nat, draw: OtpDraw)
    | SigninReq(id: string, password: string)

  /** The stores after handling one request; signin changes nothing. */
  function Apply(s: Stores, hash: string -> string, req: Request): (s': Stores) {
    match req
    case SignupReq(id, now, draw) => SignupStep(s, id, now, draw).stores
    case VerifyReq(id, code, password, now, draw) => VerifyStep(s, hash, id, code, password, now, draw).stores
    case ResendReq(id, now, draw) => ResendStep(s, id, now, draw).stores
    case SigninReq(_, _) => s
  }

  /** The stores after handling `reqs` in order, starting from `s`. */
  function Run(s: Stores, hash: string -> string, reqs: seq<Request>): (s': Stores)
    decreases |reqs|
  {
    if reqs == [] then s else Run(Apply(s, hash, reqs[0]), hash, reqs[1..])
  }

  /** Starting from empty stores, whatever requests arrive, a verification
      never meets the unique index: `DuplicateUser` is unreachable. */
  lemma {:induction false} RunNeverDuplicateUser(hash: string -> string, reqs: seq<Request>,
                                                 id: string, code: string, password: string,
                                                 now: nat, draw: OtpDraw)
    ensures !VerifyStep(Run(Stores(map[], map[]), hash, reqs), hash, id, code, password, now, draw)
      .outcome.DuplicateUser?
  {
    RunKeepsInvariant(Stores(map[], map[]), hash, reqs);
  }

  /** Every account in the user store has the default role. */
  ghost predicate OnlyDefaultRole(s: Stores) {
    forall id :: id in s.users ==> s.users[id].role == DefaultRole
  }

  /** Whatever requests arrive: no identifier becomes both registered and
      pending, no account gets the empty identifier, every pending code stays
      a well-formed passcode, and no account is removed or overwritten. */
  lemma {:induction false} RunKeepsInvariant(s: Stores, hash: string -> string, reqs: seq<Request>)
    requires Consistent(s)
    ensures Consistent(Run(s, hash, reqs))
    ensures UsersKept(s.users, Run(s, hash, reqs).users)
    decreases |reqs|
  {
    if reqs != [] {
      var s' := Apply(s, hash, reqs[0]);
      RunKeepsInvariant(s', hash, reqs[1..]);
    }
  }

  /** The handlers create accounts only with the default role: starting from
      empty stores, every account, and so every token's role claim, is
      `RoleUser`. */
  lemma {:induction false} RunCreatesOnlyDefaultRole(hash: string -> string, reqs: seq<Request>,
                                                     id: string, password: string)
    ensures OnlyDefaultRole(Run(Stores(map[], map[]), hash, reqs))
    ensures var r := Signin(Run(Stores(map[], map[]), hash, reqs), hash, id, password);
      r.LoggedIn? ==> r.accessToken.claims.role == RoleUser
  {
    RunKeepsDefaultRole(Stores(map[], map[]), hash, reqs);
  }

  lemma {:induction false} RunKeepsDefaultRole(s: Stores, hash: string -> string, reqs: seq<Request>)
    requires OnlyDefaultRole(s)
    ensures OnlyDefaultRole(Run(s, hash, reqs))
    decreases |reqs|
  {
    if reqs != [] {
      RunKeepsDefaultRole(Apply(s, hash, reqs[0]), hash, reqs[1..]);
    }
  }
}
