/**
 The registration and sign-in handlers of `controllers/AuthController.js`.

 The two record stores are maps keyed by the `email_or_phone` identifier:
 `users` (account records) and `pending` (passcodes awaiting verification).
 Each handler is first given as a pure step function from the stores before
 the request to the stores after it together with the handler's outcome;
 these functions are the specification. `AuthService` then holds the two
 stores as fields and performs the same handlers as methods that update
 them in place, each proved to agree with its step function.

 Time is an integer number of milliseconds (`now`), the random draw behind a
 passcode is a parameter, the password hash is a function supplied at
 construction, and a signed token is a value recording its claims, the key
 that signs it and its lifetime.
 */
module AuthController {
  import opened Decimal
  import opened UserModel
  import opened OtpModel

  /** A passcode stays acceptable for five minutes after it is issued. */
  const ValidityMs: nat := 5 * 60 * 1000

  /** Passcodes are `100000 + r` for a draw `r` in [0, OtpSpan). */
  const OtpBase: nat := 100000
  const OtpSpan: nat := 900000

  /** Token lifetimes: 15 minutes for access, 7 days for refresh. */
  const AccessTtlSeconds: nat := 15 * 60
  const RefreshTtlSeconds: nat := 7 * 24 * 60 * 60

  /** The random part of a passcode: the code's value minus 100000. */
  type OtpDraw = r: nat | r < OtpSpan

  /** A well-formed passcode: six decimal digits; being canonical and longer
      than one digit, it does not start with '0'. */
  predicate IsOtpCode(s: string) {
    |s| == 6 && IsCanonical(s)
  }

  /** `generateOTP()`: the decimal string of `100000 + draw`. */
  function GenerateOtp(draw: OtpDraw): (code: string)
    ensures IsOtpCode(code)
    ensures ValueOf(code) == OtpBase + draw
    ensures OtpBase <= ValueOf(code) <= 999999
  {
    DecimalLength(OtpBase + draw, 5);
    NatToDecimal(OtpBase + draw)
  }

  /** Every well-formed passcode is produced by exactly one draw. */
  lemma {:induction false} OtpCodeOfDraw(code: string)
    requires IsOtpCode(code)
    ensures OtpBase <= ValueOf(code) < OtpBase + OtpSpan
    ensures GenerateOtp(ValueOf(code) - OtpBase) == code
  {
    ValueBounds(code);
    DecimalRoundTrip(code);
  }

  /** Two draws give the same passcode exactly when they are equal. */
  lemma OtpInjective(r1: OtpDraw, r2: OtpDraw)
    ensures GenerateOtp(r1) == GenerateOtp(r2) <==> r1 == r2
  {
  }

  // ---------------------------------------------------------------------
  // The stores and the invariants the handlers keep

  datatype Stores = Stores(users: map<string, User>, pending: map<string, Otp>)

  /** What one handler call produced: the stores afterwards and its outcome. */
  datatype Step<R> = Step(stores: Stores, outcome: R)

  /** The invariant of the stores: no identifier is both registered and
      pending, no account has the empty identifier, and every pending code is
      a well-formed passcode. */
  ghost predicate Consistent(s: Stores) {
    && (forall id :: id in s.users ==> id !in s.pending)
    && "" !in s.users
    && (forall id :: id in s.pending ==> IsOtpCode(s.pending[id].code))
  }

  /** Every record of `before` is in `after` with the same contents. */
  ghost predicate UsersKept(before: map<string, User>, after: map<string, User>) {
    forall id :: id in before ==> id in after && after[id] == before[id]
  }

  /** `m` and `m'` agree on every key other than `id`. */
  ghost predicate SameExcept<V>(m: map<string, V>, m': map<string, V>, id: string) {
    forall k :: k != id ==> (k in m <==> k in m') && (k in m ==> m[k] == m'[k])
  }

  /** A fresh pending record for a passcode issued at `now`. */
  function FreshOtp(now: nat, draw: OtpDraw): (o: Otp)
    ensures IsOtpCode(o.code) && o.expiresAt - now == ValidityMs
  {
    Otp(GenerateOtp(draw), now + ValidityMs)
  }

  // ---------------------------------------------------------------------
  // signup

  datatype SignupResult = AlreadyRegistered | OtpSent

  /** `signup`: refuse a registered identifier; otherwise upsert a pending
      record with a fresh passcode that expires five minutes from now. */
  function SignupStep(s: Stores, id: string, now: nat, draw: OtpDraw): (t: Step<SignupResult>)
    ensures t.outcome.AlreadyRegistered? <==> id in s.users
    ensures t.outcome.AlreadyRegistered? ==> t.stores == s
    ensures t.outcome.OtpSent? ==>
      && t.stores.users == s.users
      && id in t.stores.pending
      && t.stores.pending[id].code == GenerateOtp(draw)
      && t.stores.pending[id].expiresAt == now + ValidityMs
      && SameExcept(s.pending, t.stores.pending, id)
    ensures Consistent(s) ==> Consistent(t.stores)
    ensures UsersKept(s.users, t.stores.users)
  {
    if id in s.users then Step(s, AlreadyRegistered)
    else Step(Stores(s.users, s.pending[id := FreshOtp(now, draw)]), OtpSent)
  }

  // ---------------------------------------------------------------------
  // verifyOTP

  /** `VerifyValidationError` is a `save()` that the schema's `required` check on
      `email_or_phone` rejects because the identifier is empty;
      `DuplicateUser` is a `save()` that the unique index on it rejects. */
  datatype VerifyResult =
    | InvalidOtp | OtpExpired | Registered | VerifyValidationError | DuplicateUser

  /** The schema marks `email_or_phone` as required, which rejects the empty
      string whenever a record is saved with validation. */
  predicate IdentifierValid(id: string) {
    id != ""
  }

  /** `bcrypt.compare`, with the hash modelled as a plain function. */
  predicate PasswordMatches(hash: string -> string, password: string, stored: string) {
    hash(password) == stored
  }

  /** `verifyOTP`. An expired pending record is renewed in place whatever code
      was submitted; an unexpired one with a different code, or no record at
      all, is refused with nothing changed; otherwise the account is created
      with the hashed password and the default role and the pending record is
      deleted. Each `save()` validates the whole record, so for the empty
      identifier the renewal and the account creation both fail with nothing
      changed; an account for an identifier that already has one fails at the
      store's unique index before the pending record is touched. */
  function VerifyStep(s: Stores, hash: string -> string, id: string, code: string,
                      password: string, now: nat, draw: OtpDraw): (t: Step<VerifyResult>)
    ensures t.outcome.InvalidOtp? <==>
      id !in s.pending || (now <= s.pending[id].expiresAt && s.pending[id].code != code)
    ensures t.outcome.OtpExpired? <==>
      id in s.pending && s.pending[id].expiresAt < now && IdentifierValid(id)
    ensures t.outcome.VerifyValidationError? <==>
      && id in s.pending && !IdentifierValid(id)
      && (s.pending[id].expiresAt < now || s.pending[id].code == code)
    ensures t.outcome.Registered? <==>
      && id in s.pending && now <= s.pending[id].expiresAt && s.pending[id].code == code
      && IdentifierValid(id) && id !in s.users
    ensures t.outcome.DuplicateUser? ==> id in s.users && id in s.pending && !Consistent(s)
    ensures t.outcome.InvalidOtp? || t.outcome.VerifyValidationError? || t.outcome.DuplicateUser? ==>
      t.stores == s
    ensures t.outcome.OtpExpired? ==>
      && t.stores.users == s.users
      && id in t.stores.pending
      && t.stores.pending[id].code == GenerateOtp(draw)
      && t.stores.pending[id].expiresAt == now + ValidityMs
      && SameExcept(s.pending, t.stores.pending, id)
    ensures t.outcome.Registered? ==>
      && id in t.stores.users
      && t.stores.users[id] == User(hash(password), DefaultRole)
      && SameExcept(s.users, t.stores.users, id)
      && id !in t.stores.pending
      && SameExcept(s.pending, t.stores.pending, id)
    ensures Consistent(s) ==> Consistent(t.stores)
    ensures UsersKept(s.users, t.stores.users)
  {
    if id !in s.pending || s.pending[id].code != code || s.pending[id].expiresAt < now then
      if id in s.pending && s.pending[id].expiresAt < now then
        if !IdentifierValid(id) then Step(s, VerifyValidationError)
        else
          Step(Stores(s.users, s.pending[id := FreshOtp(now, draw)]), OtpExpired)
      else
        Step(s, InvalidOtp)
    else if !IdentifierValid(id) then
      Step(s, VerifyValidationError)
    else if id in s.users then
      Step(s, DuplicateUser)
    else
      var account := User(hash(password), DefaultRole);
      Step(Stores(s.users[id := account], s.pending - {id}), Registered)
  }

  // ---------------------------------------------------------------------
  // resendOTP

  datatype ResendResult = OtpResent | NoOtpRequest | ResendValidationError

  /** `resendOTP`: an existing pending record always gets a fresh passcode and
      a fresh expiry, valid or not; without one the request is refused. The
      `save()` of a record with the empty identifier fails validation, and
      nothing changes. */
  function ResendStep(s: Stores, id: string, now: nat, draw: OtpDraw): (t: Step<ResendResult>)
    ensures t.outcome.NoOtpRequest? <==> id !in s.pending
    ensures t.outcome.ResendValidationError? <==> id in s.pending && !IdentifierValid(id)
    ensures t.outcome.OtpResent? <==> id in s.pending && IdentifierValid(id)
    ensures t.outcome.NoOtpRequest? || t.outcome.ResendValidationError? ==> t.stores == s
    ensures t.outcome.OtpResent? ==>
      && t.stores.users == s.users
      && id in t.stores.pending
      && t.stores.pending[id].code == GenerateOtp(draw)
      && t.stores.pending[id].expiresAt == now + ValidityMs
      && SameExcept(s.pending, t.stores.pending, id)
    ensures Consistent(s) ==> Consistent(t.stores)
    ensures UsersKept(s.users, t.stores.users)
  {
    if id in s.pending then
      if !IdentifierValid(id) then Step(s, ResendValidationError)
      else
        Step(Stores(s.users, s.pending[id := FreshOtp(now, draw)]), OtpResent)
    else
      Step(s, NoOtpRequest)
  }

  // ---------------------------------------------------------------------
  // signin

  /** The claims both tokens carry: the account's id and role. */
  datatype Claims = Claims(id: string, role: Role)

  /** The two secrets tokens are signed with. */
  datatype SigningKey = AccessSecret | RefreshSecret

  /** `jwt.sign(claims, key, { expiresIn })`, recorded rather than computed. */
  datatype Token = Token(claims: Claims, key: SigningKey, expiresInSeconds: nat)

  datatype SigninResult =
    | UserNotFound
    | InvalidPassword
    | LoggedIn(accessToken: Token, refreshToken: Token)

  /** `signin`: a read-only lookup, a password check, and two tokens. */
  function Signin(s: Stores, hash: string -> string, id: string, password: string): (r: SigninResult)
    ensures r.UserNotFound? <==> id !in s.users
    ensures r.InvalidPassword? <==>
      id in s.users && !PasswordMatches(hash, password, s.users[id].password)
    ensures r.LoggedIn? ==>
      && id in s.users
      && r.accessToken.claims == Claims(id, s.users[id].role)
      && r.refreshToken.claims == r.accessToken.claims
      && r.accessToken.key == AccessSecret && r.refreshToken.key == RefreshSecret
      && r.accessToken.expiresInSeconds == 15 * 60
      && r.refreshToken.expiresInSeconds == 7 * 24 * 60 * 60
      && r.accessToken.expiresInSeconds < r.refreshToken.expiresInSeconds
  {
    if id !in s.users then UserNotFound
    else
      var user := s.users[id];
      if !PasswordMatches(hash, password, user.password) then InvalidPassword
      else
        var claims := Claims(id, user.role);
        LoggedIn(Token(claims, AccessSecret, AccessTtlSeconds),
                 Token(claims, RefreshSecret, RefreshTtlSeconds))
  }

  // ---------------------------------------------------------------------
  // The handlers over stores updated in place

  /** A passcode handed to the out-of-band channel for an identifier. */
  datatype Delivery = Delivery(id: string, code: string)

  class AuthService {
    var users: map<string, User>
    var pending: map<string, Otp>
    const hash: string -> string
    /** Every passcode written to the notification channel, in order. */
    ghost var delivered: seq<Delivery>

    function State(): (s: Stores)
      reads this
    {
      Stores(users, pending)
    }

    /** The stores are consistent and every pending code has been delivered
        to the identifier it belongs to. */
    ghost predicate Valid()
      reads this
    {
      && Consistent(State())
      && forall id :: id in pending ==> Delivery(id, pending[id].code) in delivered
    }

    constructor (hash: string -> string)
      ensures Valid()
      ensures users == map[] && pending == map[] && delivered == []
      ensures this.hash == hash
    {
      users := map[];
      pending := map[];
      this.hash := hash;
      delivered := [];
    }

    method Signup(id: string, now: nat, draw: OtpDraw) returns (result: SignupResult)
      modifies this
      ensures var t := SignupStep(old(State()), id, now, draw);
        State() == t.stores && result == t.outcome
      ensures delivered ==
        if result.OtpSent? then old(delivered) + [Delivery(id, GenerateOtp(draw))]
        else old(delivered)
      ensures old(Valid()) ==> Valid()
    {
      if id in users {
        return AlreadyRegistered;
      }
      var otp := GenerateOtp(draw);
      var expirationTime := now + ValidityMs;
      pending := pending[id := Otp(otp, expirationTime)];
      delivered := delivered + [Delivery(id, otp)];
      result := OtpSent;
    }

    method VerifyOtp(id: string, code: string, password: string, now: nat, draw: OtpDraw)
      returns (result: VerifyResult)
      modifies this
      ensures var t := VerifyStep(old(State()), hash, id, code, password, now, draw);
        State() == t.stores && result == t.outcome
      ensures delivered ==
        if result.OtpExpired? then old(delivered) + [Delivery(id, GenerateOtp(draw))]
        else old(delivered)
      ensures old(Valid()) ==> Valid() && !result.DuplicateUser?
    {
      if id !in pending || pending[id].code != code || pending[id].expiresAt < now {
        if id in pending && pending[id].expiresAt < now {
          var entry := pending[id];
          var newOtp := GenerateOtp(draw);
          entry := entry.(code := newOtp);
          entry := entry.(expiresAt := now + ValidityMs);
          if !IdentifierValid(id) {
            return VerifyValidationError;
          }
          pending := pending[id := entry];
          delivered := delivered + [Delivery(id, newOtp)];
          return OtpExpired;
        }
        return InvalidOtp;
      }
      if !IdentifierValid(id) {
        return VerifyValidationError;
      }
      if id in users {
        return DuplicateUser;
      }
      users := users[id := User(hash(password), DefaultRole)];
      pending := pending - {id};
      result := Registered;
    }

    method ResendOtp(id: string, now: nat, draw: OtpDraw) returns (result: ResendResult)
      modifies this
      ensures var t := ResendStep(old(State()), id, now, draw);
        State() == t.stores && result == t.outcome
      ensures delivered ==
        if result.OtpResent? then old(delivered) + [Delivery(id, GenerateOtp(draw))]
        else old(delivered)
      ensures old(Valid()) ==> Valid()
    {
      if id in pending {
        var entry := pending[id];
        var newOtp := GenerateOtp(draw);
        entry := entry.(code := newOtp);
        entry := entry.(expiresAt := now + ValidityMs);
        if !IdentifierValid(id) {
          return ResendValidationError;
        }
        pending := pending[id := entry];
        delivered := delivered + [Delivery(id, newOtp)];
        result := OtpResent;
      } else {
        result := NoOtpRequest;
      }
    }
  }
}
