/** The account handlers of the backend: `signup`, `login` and `otp`. Each is an
    ordered chain of early-return checks; `signup` inserts a user, `otp` moves a
    user from unverified to verified in place.

    Outside this model, and given as parameters of `AuthController`:
    `validateEmail`, bcrypt's `hash` and `compare`. The access token of a login
    is the id it is issued for. Mails are recorded as notices, without their
    HTML text. */
module AuthControllers {
  import opened Wrappers
  import opened Decimal

  /** A request-body value, as far as the checks tell values apart. */
  datatype Json = Absent | Null | Bool(b: bool) | Num(n: int) | Str(s: string) | Composite

  /** JavaScript truthiness. */
  predicate Truthy(v: Json) {
    match v
    case Absent => false
    case Null => false
    case Bool(b) => b
    case Num(n) => n != 0
    case Str(s) => s != ""
    case Composite => true
  }

  /** A stored user; `password` holds the hash. `otp` is `None` when null;
      `otpExpires` is `None` when never set (undefined). */
  datatype User = User(id: string, name: string, email: string, password: string,
                       otp: Option<int>, otpExpires: Option<int>, isverified: bool)

  datatype AuthReply =
    | Created | LoggedIn(token: string) | Verified
    | MissingFields | NotStrings | PasswordTooShort | InvalidEmail | AlreadyRegistered
    | NotRegistered | WrongPassword | InvalidOtp | OtpExpired
  {
    function Code(): int { if Created? || LoggedIn? || Verified? then 200 else 400 }
  }

  /** The mails the handlers send: the sign-up code, and the login alert. */
  datatype Notice = OtpMail(to: string, name: string, otp: int) | LoginAlert(to: string, name: string)

  /** Users by e-mail (`User.findOne({ email })`) and the mails sent so far. */
  datatype AuthWorld = AuthWorld(users: map<string, User>, outbox: seq<Notice>)

  datatype AuthOutcome = AuthOutcome(world: AuthWorld, reply: AuthReply)

  const MinPasswordLength := 4
  const OtpLow := 100000
  const OtpHigh := 999999

  /** `Math.floor(100000 + Math.random() * 900000)`. */
  function OtpCode(random: real): (otp: int)
    requires 0.0 <= random < 1.0
    ensures OtpLow <= otp <= OtpHigh
  {
    (100000.0 + random * 900000.0).Floor
  }

  /** Every six-digit code is drawn by some random value: the range is exact. */
  lemma OtpCodeReaches(otp: int)
    requires OtpLow <= otp <= OtpHigh
    ensures var random := (otp - OtpLow) as real / 900000.0;
      0.0 <= random < 1.0 && OtpCode(random) == otp
  {
    var random := (otp - OtpLow) as real / 900000.0;
    assert random * 900000.0 == (otp - OtpLow) as real;
    assert 100000.0 + random * 900000.0 == otp as real;
  }

  /** `password.length`: JavaScript counts UTF-16 code units, so a character
      outside the Basic Multilingual Plane counts twice. */
  function Utf16Length(s: string): (n: nat)
    ensures |s| <= n <= 2 * |s|
    ensures n == |s| <==> forall i :: 0 <= i < |s| ==> s[i] as int <= 0xFFFF
    ensures n == 2 * |s| <==> forall i :: 0 <= i < |s| ==> s[i] as int > 0xFFFF
    decreases |s|
  {
    if s == [] then 0
    else
      var rest := Utf16Length(s[1..]);
      assert forall i :: 1 <= i < |s| ==> s[i] == s[1..][i - 1];
      (if s[0] as int <= 0xFFFF then 1 else 2) + rest
  }

  /** `name`, `email` and `password` are all truthy. */
  predicate FieldsGiven(name: Json, email: Json, password: Json) {
    Truthy(name) && Truthy(email) && Truthy(password)
  }

  predicate AllStrings(name: Json, email: Json, password: Json) {
    name.Str? && email.Str? && password.Str?
  }

  /** The checks of `signup`, in their order; `None` when all pass. Each
      failure is reported exactly when its own test fails and every earlier
      one passed. */
  function SignupCheck(name: Json, email: Json, password: Json, users: map<string, User>,
                       validEmail: string -> bool): (r: Option<AuthReply>)
    ensures r == Some(MissingFields) <==> !FieldsGiven(name, email, password)
    ensures r == Some(NotStrings) <==> FieldsGiven(name, email, password) && !AllStrings(name, email, password)
    ensures r == Some(PasswordTooShort) <==>
      && FieldsGiven(name, email, password) && AllStrings(name, email, password)
      && Utf16Length(password.s) < MinPasswordLength
    ensures r == Some(InvalidEmail) <==>
      && FieldsGiven(name, email, password) && AllStrings(name, email, password)
      && Utf16Length(password.s) >= MinPasswordLength && !validEmail(email.s)
    ensures r == Some(AlreadyRegistered) <==>
      && FieldsGiven(name, email, password) && AllStrings(name, email, password)
      && Utf16Length(password.s) >= MinPasswordLength && validEmail(email.s) && email.s in users
    ensures r.Some? ==> r.value in {MissingFields, NotStrings, PasswordTooShort, InvalidEmail, AlreadyRegistered}
    ensures r.None? <==>
      && name.Str? && email.Str? && password.Str?
      && name.s != "" && email.s != ""
      && Utf16Length(password.s) >= MinPasswordLength
      && validEmail(email.s) && email.s !in users
  {
    if !Truthy(name) || !Truthy(email) || !Truthy(password) then Some(MissingFields)
    else if !name.Str? || !email.Str? || !password.Str? then Some(NotStrings)
    else if Utf16Length(password.s) < MinPasswordLength then Some(PasswordTooShort)
    else if !validEmail(email.s) then Some(InvalidEmail)
    else if email.s in users then Some(AlreadyRegistered)
    else None
  }

  /** `signup`: a new, unverified user holding the drawn code, and a mail that
      carries the code. Failures create nothing and send nothing. */
  function SignupEffect(w: AuthWorld, validEmail: string -> bool, hash: string -> string,
                        name: Json, email: Json, password: Json, random: real, newId: string): (o: AuthOutcome)
    requires 0.0 <= random < 1.0
    ensures o.reply != Created ==> o.world == w && Some(o.reply) == SignupCheck(name, email, password, w.users, validEmail)
    ensures o.reply == Created <==> SignupCheck(name, email, password, w.users, validEmail).None?
    ensures o.reply == Created ==>
      && email.s !in w.users
      && o.world.users == w.users[email.s := User(newId, name.s, email.s, hash(password.s), Some(OtpCode(random)), None, false)]
      && o.world.outbox == w.outbox + [OtpMail(email.s, name.s, OtpCode(random))]
  {
    var otp := OtpCode(random);
    match SignupCheck(name, email, password, w.users, validEmail)
    case Some(failure) => AuthOutcome(w, failure)
    case None =>
      var user := User(newId, name.s, email.s, hash(password.s), Some(otp), None, false);
      AuthOutcome(AuthWorld(w.users[email.s := user], w.outbox + [OtpMail(email.s, name.s, otp)]), Created)
  }

  /** `login`: a token only when both fields are given, the e-mail is
      registered and the password matches its hash, in that order. */
  function LoginEffect(w: AuthWorld, matches: (string, string) -> bool, email: string, password: string): (o: AuthOutcome)
    ensures o.world.users == w.users
    ensures o.reply.LoggedIn? <==> email != "" && password != "" && email in w.users && matches(password, w.users[email].password)
    ensures o.reply.LoggedIn? ==>
      o.reply.token == w.users[email].id && o.world.outbox == w.outbox + [LoginAlert(w.users[email].email, w.users[email].name)]
    ensures !o.reply.LoggedIn? ==> o.world == w
    ensures o.reply == MissingFields <==> email == "" || password == ""
    ensures o.reply == NotRegistered <==> email != "" && password != "" && email !in w.users
    ensures o.reply == WrongPassword <==>
      email != "" && password != "" && email in w.users && !matches(password, w.users[email].password)
  {
    if email == "" || password == "" then AuthOutcome(w, MissingFields)
    else if email !in w.users then AuthOutcome(w, NotRegistered)
    else
      var user := w.users[email];
      if !matches(password, user.password) then AuthOutcome(w, WrongPassword)
      else AuthOutcome(w.(outbox := w.outbox + [LoginAlert(user.email, user.name)]), LoggedIn(user.id))
  }

  /** `user.otp === parseInt(otp)`: a null code never matches, nor does a
      code that reads as `NaN`; otherwise the values are compared. */
  predicate CodeMatches(stored: Option<int>, code: string)
    ensures stored.None? ==> !CodeMatches(stored, code)
    ensures ParseInt(code).None? ==> !CodeMatches(stored, code)
    ensures stored.Some? && ParseInt(code).Some? ==>
      (CodeMatches(stored, code) <==> ParseInt(code).value == stored.value)
  {
    stored.Some? && ParseInt(code) == stored
  }

  /** `Date.now() > user.otpExpires`: with the expiry never set the comparison
      is with `NaN`, which is false. */
  predicate Expired(u: User, now: int)
    ensures u.otpExpires.None? ==> !Expired(u, now)
  {
    u.otpExpires.Some? && now > u.otpExpires.value
  }

  /** `parseInt` reads only the digits after leading white space: the stored
      code typed with white space before it and any non-digit text after it
      still matches. */
  lemma {:induction false} PaddedCodeMatches(otp: int, before: string, after: string)
    requires forall i :: 0 <= i < |before| ==> IsSpace(before[i])
    requires after == [] || !IsDigit(after[0])
    ensures CodeMatches(Some(otp), before + ShowInt(otp) + after)
  {
    ParseIntPadded(otp, before, after);
  }

  /** `otp`: the code is checked before its expiry; success clears the code and
      marks the user verified. */
  function VerifyOtpEffect(w: AuthWorld, email: string, code: string, now: int): (o: AuthOutcome)
    ensures o.world.outbox == w.outbox
    ensures o.reply != Verified ==> o.world == w
    ensures o.reply == MissingFields <==> email == "" || code == ""
    ensures o.reply == NotRegistered <==> email != "" && code != "" && email !in w.users
    ensures o.reply == InvalidOtp <==>
      email != "" && code != "" && email in w.users && !CodeMatches(w.users[email].otp, code)
    ensures o.reply == OtpExpired <==>
      && email != "" && code != "" && email in w.users
      && CodeMatches(w.users[email].otp, code) && Expired(w.users[email], now)
    ensures o.reply == Verified <==>
      email != "" && code != "" && email in w.users
      && CodeMatches(w.users[email].otp, code) && !Expired(w.users[email], now)
    ensures o.reply == Verified ==>
      o.world.users == w.users[email := w.users[email].(otp := None, isverified := true)]
  {
    if email == "" || code == "" then AuthOutcome(w, MissingFields)
    else if email !in w.users then AuthOutcome(w, NotRegistered)
    else
      var user := w.users[email];
      if !CodeMatches(user.otp, code) then AuthOutcome(w, InvalidOtp)
      else if Expired(user, now) then AuthOutcome(w, OtpExpired)
      else AuthOutcome(w.(users := w.users[email := user.(otp := None, isverified := true)]), Verified)
  }

  /** A verified code cannot be used twice: the second attempt is rejected as
      an invalid code, whatever it is and whenever it comes. */
  lemma VerificationNotReplayable(w: AuthWorld, email: string, code: string, now: int, again: string, later: int)
    requires VerifyOtpEffect(w, email, code, now).reply == Verified
    ensures var w' := VerifyOtpEffect(w, email, code, now).world;
      VerifyOtpEffect(w', email, again, later).reply == (if again == "" then MissingFields else InvalidOtp)
  {
  }

  /** The code mailed by `signup`, typed back as the mail prints it, verifies
      the new account at any later time: `signup` sets no expiry. */
  lemma {:induction false} MailedCodeVerifies(w: AuthWorld, validEmail: string -> bool, hash: string -> string,
                                name: Json, email: Json, password: Json, random: real, newId: string, now: int)
    requires 0.0 <= random < 1.0
    requires SignupEffect(w, validEmail, hash, name, email, password, random, newId).reply == Created
    ensures var signed := SignupEffect(w, validEmail, hash, name, email, password, random, newId).world;
      var mail := signed.outbox[|signed.outbox| - 1];
      && mail.OtpMail?
      && VerifyOtpEffect(signed, mail.to, ShowInt(mail.otp), now).reply == Verified
      && VerifyOtpEffect(signed, mail.to, ShowInt(mail.otp), now).world.users[mail.to].isverified
  {
    var otp := OtpCode(random);
    ParseIntShowInt(otp);
  }

  /** Verification is one-way: no handler turns a verified user back into an
      unverified one. */
  lemma VerifiedStaysVerified(w: AuthWorld, e: string, validEmail: string -> bool, hash: string -> string,
                              matches: (string, string) -> bool, name: Json, email: Json, password: Json,
                              random: real, newId: string, loginEmail: string, loginPassword: string,
                              code: string, now: int)
    requires 0.0 <= random < 1.0
    requires e in w.users && w.users[e].isverified
    ensures var s := SignupEffect(w, validEmail, hash, name, email, password, random, newId).world;
      e in s.users && s.users[e].isverified
    ensures var l := LoginEffect(w, matches, loginEmail, loginPassword).world;
      e in l.users && l.users[e].isverified
    ensures var v := VerifyOtpEffect(w, loginEmail, code, now).world;
      e in v.users && v.users[e].isverified
  {
  }

  /** `login` never looks at `isverified`: an account whose code was never
      entered logs in exactly like a verified one. */
  lemma LoginIgnoresVerification(w: AuthWorld, matches: (string, string) -> bool, email: string, password: string)
    requires email in w.users
    ensures var u := w.users[email];
      LoginEffect(w.(users := w.users[email := u.(isverified := false)]), matches, email, password).reply
      == LoginEffect(w.(users := w.users[email := u.(isverified := true)]), matches, email, password).reply
  {
  }

  /** The handlers as the server runs them, over a user collection changed in
      place. */
  class AuthController {
    var users: map<string, User>
    var outbox: seq<Notice>
    const validEmail: string -> bool
    const hash: string -> string
    const matches: (string, string) -> bool

    function State(): AuthWorld
      reads this
    {
      AuthWorld(users, outbox)
    }

    constructor (validEmail: string -> bool, hash: string -> string, matches: (string, string) -> bool)
      ensures State() == AuthWorld(map[], [])
      ensures this.validEmail == validEmail && this.hash == hash && this.matches == matches
    {
      this.validEmail, this.hash, this.matches := validEmail, hash, matches;
      users, outbox := map[], [];
    }

    method Signup(name: Json, email: Json, password: Json, random: real, newId: string) returns (reply: AuthReply)
      requires 0.0 <= random < 1.0
      modifies this
      ensures AuthOutcome(State(), reply) == SignupEffect(old(State()), validEmail, hash, name, email, password, random, newId)
    {
      var failure := SignupCheck(name, email, password, users, validEmail);
      if failure.Some? {
        return failure.value;
      }
      var otp := OtpCode(random);
      users := users[email.s := User(newId, name.s, email.s, hash(password.s), Some(otp), None, false)];
      outbox := outbox + [OtpMail(email.s, name.s, otp)];
      reply := Created;
    }

    method Login(email: string, password: string) returns (reply: AuthReply)
      modifies this
      ensures AuthOutcome(State(), reply) == LoginEffect(old(State()), matches, email, password)
    {
      if email == "" || password == "" {
        return MissingFields;
      }
      if email !in users {
        return NotRegistered;
      }
      var user := users[email];
      if !matches(password, user.password) {
        return WrongPassword;
      }
      outbox := outbox + [LoginAlert(user.email, user.name)];
      reply := LoggedIn(user.id);
    }

    method VerifyOtp(email: string, code: string, now: int) returns (reply: AuthReply)
      modifies this
      ensures AuthOutcome(State(), reply) == VerifyOtpEffect(old(State()), email, code, now)
    {
      if email == "" || code == "" {
        return MissingFields;
      }
      if email !in users {
        return NotRegistered;
      }
      var user := users[email];
      if user.otp.None? || ParseInt(code) != user.otp {
        return InvalidOtp;
      }
      if user.otpExpires.Some? && now > user.otpExpires.value {
        return OtpExpired;
      }
      users := users[email := user.(otp := None, isverified := true)];
      reply := Verified;
    }
  }
}
