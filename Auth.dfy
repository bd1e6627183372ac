/**
 * The account routes: sign-up and log-in normalise what they are given
 * before any lookup, and the password-reset flow keeps one code per e-mail
 * in a process-wide store. A code is issued only for a known e-mail, can be
 * checked any number of times until it expires, and is consumed by the
 * reset it authorises.
 */
module Auth {
  import opened Common
  import opened Models

  const CODE_LENGTH: nat := 6
  /** Fifteen minutes, in seconds. */
  const CODE_LIFETIME: nat := 15 * 60

  // ------------------------------------------------------------ normalisation

  /** `data.get("username", "").strip()` */
  function NormalUsername(o: Option<string>): (r: string)
    ensures r == Strip(OrEmpty(o))
    ensures r == [] || (!IsSpace(r[0]) && !IsSpace(r[|r| - 1]))
  {
    Strip(OrEmpty(o))
  }

  /** `data.get("email", "").strip().lower()`, the order sign-up and log-in use. */
  function NormalEmail(o: Option<string>): (r: string)
    ensures |r| <= |OrEmpty(o)|
    ensures forall i :: 0 <= i < |r| ==> !IsUpper(r[i])
  {
    Lower(Strip(OrEmpty(o)))
  }

  /** `data.get("email", "").lower().strip()`, the order the reset routes use. */
  function ResetEmail(o: Option<string>): (r: string)
  {
    Strip(Lower(OrEmpty(o)))
  }

  lemma LowerKeepsSpaces(s: string)
    ensures forall i :: 0 <= i < |s| ==> (IsSpace(Lower(s)[i]) <==> IsSpace(s[i]))
  {
  }

  lemma {:induction false} LeadingSpacesLower(s: string)
    ensures LeadingSpaces(Lower(s)) == LeadingSpaces(s)
  {
    LowerKeepsSpaces(s);
    if s != [] && IsSpace(s[0]) {
      assert Lower(s)[1..] == Lower(s[1..]);
      LeadingSpacesLower(s[1..]);
    }
  }

  lemma {:induction false} TrimEndLower(s: string)
    ensures TrimEnd(Lower(s)) == Lower(TrimEnd(s))
    decreases |s|
  {
    LowerKeepsSpaces(s);
    if s != [] && IsSpace(s[|s| - 1]) {
      assert Lower(s)[..|s| - 1] == Lower(s[..|s| - 1]);
      TrimEndLower(s[..|s| - 1]);
    }
  }

  /**
   * Lower-casing changes no whitespace, so the two normalisation orders
   * agree: a code issued by the reset routes is stored under the same
   * address sign-up recorded.
   */
  lemma NormalisationsAgree(o: Option<string>)
    ensures ResetEmail(o) == NormalEmail(o)
  {
    var s := OrEmpty(o);
    var a := LeadingSpaces(s);
    LeadingSpacesLower(s);
    assert Lower(s)[a..] == Lower(s[a..]);
    TrimEndLower(s[a..]);
  }

  // ---------------------------------------------------------- sign-up, log-in

  /** No two accounts share a username. */
  predicate UniqueUsernames(users: seq<User>)
  {
    forall i, j :: 0 <= i < j < |users| ==> users[i].username != users[j].username
  }

  /** No two accounts share an e-mail. */
  predicate UniqueEmails(users: seq<User>)
  {
    forall i, j :: 0 <= i < j < |users| ==> users[i].email != users[j].email
  }

  /** Appending an account whose username and e-mail are both unused keeps both columns unique. */
  lemma AppendUnusedKeepsUnique(users: seq<User>, u: User)
    requires UniqueUsernames(users) && UniqueEmails(users)
    requires FindByUsername(users, u.username).None? && FindByEmail(users, u.email).None?
    ensures UniqueUsernames(users + [u]) && UniqueEmails(users + [u])
  {
    var r := users + [u];
    forall i, j | 0 <= i < j < |r| ensures r[i].username != r[j].username && r[i].email != r[j].email {
      if j == |users| {
        assert r[i] in users;
      }
    }
  }

  /** The account an e-mail finds after an account with an unused e-mail is appended is that account. */
  lemma {:induction false} FindAppended(users: seq<User>, u: User)
    requires FindByEmail(users, u.email).None?
    ensures FindByEmail(users + [u], u.email) == Some(u)
  {
    if users == [] {
      assert [] + [u] == [u];
    } else {
      assert (users + [u])[1..] == users[1..] + [u];
      FindAppended(users[1..], u);
    }
  }

  /**
   * `signup`: a field empty after normalisation (400), a taken username
   * (409) before a taken e-mail (409); otherwise an account is added with
   * the hashed password and its session starts (201). `hash` stands for
   * bcrypt.
   */
  method Signup(db: Database, username: Option<string>, email: Option<string>, password: Option<string>,
                hash: string -> string) returns (reply: Reply, session: Option<nat>)
    requires db.Valid()
    modifies db
    ensures db.Valid()
    ensures NormalUsername(username) == [] || NormalEmail(email) == [] || OrEmpty(password) == []
            ==> reply == Reply(400, "All fields are required")
    ensures NormalUsername(username) != [] && NormalEmail(email) != [] && OrEmpty(password) != []
            && FindByUsername(old(db.users), NormalUsername(username)).Some?
            ==> reply == Reply(409, "Username already exists")
    ensures NormalUsername(username) != [] && NormalEmail(email) != [] && OrEmpty(password) != []
            && FindByUsername(old(db.users), NormalUsername(username)).None?
            && FindByEmail(old(db.users), NormalEmail(email)).Some?
            ==> reply == Reply(409, "Email already registered")
    ensures reply.code == 201 <==>
              NormalUsername(username) != [] && NormalEmail(email) != [] && OrEmpty(password) != []
              && FindByUsername(old(db.users), NormalUsername(username)).None?
              && FindByEmail(old(db.users), NormalEmail(email)).None?
    ensures reply.code != 201 ==> unchanged(db) && session.None?
    ensures reply.code == 201 ==>
              reply.text == "User created and logged in successfully"
              && session == Some(old(db.nextUserId))
              && db.users == old(db.users) + [User(old(db.nextUserId), NormalUsername(username),
                                                   NormalEmail(email), hash(OrEmpty(password)), None, false, true)]
              && db.profiles == old(db.profiles) && db.connections == old(db.connections)
    ensures UniqueUsernames(old(db.users)) && UniqueEmails(old(db.users))
            ==> UniqueUsernames(db.users) && UniqueEmails(db.users)
  {
    var name := NormalUsername(username);
    var address := NormalEmail(email);
    var secret := OrEmpty(password);
    if name == [] || address == [] || secret == [] {
      return Reply(400, "All fields are required"), None;
    }
    if FindByUsername(db.users, name).Some? {
      return Reply(409, "Username already exists"), None;
    }
    if FindByEmail(db.users, address).Some? {
      return Reply(409, "Email already registered"), None;
    }
    if UniqueUsernames(db.users) && UniqueEmails(db.users) {
      AppendUnusedKeepsUnique(db.users, User(db.nextUserId, name, address, hash(secret), None, false, true));
    }
    var id := db.AddUser(name, address, hash(secret));
    session := Some(id);
    reply := Reply(201, "User created and logged in successfully");
  }

  /**
   * `login`: an empty e-mail or password (400); an unknown e-mail and a
   * wrong password give the same answer (401); otherwise 200, and the
   * session starts for an active account.
   */
  method Login(db: Database, email: Option<string>, password: Option<string>,
               checkPassword: (string, string) -> bool) returns (reply: Reply, session: Option<nat>)
    ensures NormalEmail(email) == [] || OrEmpty(password) == [] ==> reply == Reply(400, "Email and password are required")
    ensures reply.code == 200 <==>
              NormalEmail(email) != [] && OrEmpty(password) != [] && FindByEmail(db.users, NormalEmail(email)).Some?
              && checkPassword(FindByEmail(db.users, NormalEmail(email)).value.passwordHash, OrEmpty(password))
    ensures reply.code == 200 ==> reply.text == "Logged in successfully"
    ensures NormalEmail(email) != [] && OrEmpty(password) != []
            && (FindByEmail(db.users, NormalEmail(email)).None?
                || !checkPassword(FindByEmail(db.users, NormalEmail(email)).value.passwordHash, OrEmpty(password)))
            ==> reply == Reply(401, "Invalid credentials")
    ensures session.Some? <==> reply.code == 200 && FindByEmail(db.users, NormalEmail(email)).value.isActive
    ensures session.Some? ==> session.value == FindByEmail(db.users, NormalEmail(email)).value.id
  {
    var address := NormalEmail(email);
    var secret := OrEmpty(password);
    if address == [] || secret == [] {
      return Reply(400, "Email and password are required"), None;
    }
    var user := FindByEmail(db.users, address);
    if user.None? || !checkPassword(user.value.passwordHash, secret) {
      return Reply(401, "Invalid credentials"), None;
    }
    session := if user.value.isActive then Some(user.value.id) else None;
    reply := Reply(200, "Logged in successfully");
  }

  /**
   * An account just created by sign-up can log in with the same e-mail and
   * password, when the password check accepts what the hash produced.
   */
  lemma SignupThenLogin(users: seq<User>, id: nat, username: Option<string>, email: Option<string>,
                        password: string, hash: string -> string, checkPassword: (string, string) -> bool)
    requires FindByEmail(users, NormalEmail(email)).None?
    requires checkPassword(hash(password), password)
    ensures var u := User(id, NormalUsername(username), NormalEmail(email), hash(password), None, false, true);
            FindByEmail(users + [u], NormalEmail(email)) == Some(u)
            && checkPassword(FindByEmail(users + [u], NormalEmail(email)).value.passwordHash, password)
  {
    FindAppended(users, User(id, NormalUsername(username), NormalEmail(email), hash(password), None, false, true));
  }

  // ------------------------------------------------------------ reset codes

  /** `generate_code`: `length` draws from the ten digits; `pick(i)` is the i-th random draw. */
  function GenerateCode(length: nat, pick: nat -> nat): (r: string)
    ensures |r| == length
    ensures forall i :: 0 <= i < |r| ==> IsDigit(r[i])
  {
    var r := seq(length, i requires 0 <= i < length => RandomDigit(pick(i)));
    assert forall i :: 0 <= i < length ==> r[i] == RandomDigit(pick(i));
    r
  }

  /** `random.choice(string.digits)` from a raw draw. */
  function RandomDigit(draw: nat): (c: char)
    ensures IsDigit(c)
    ensures draw < 10 ==> c == DigitChar(draw)
  {
    DigitChar(draw % 10)
  }

  /** The value of the digit at position `i` (0 past the end). */
  function DigitAt(code: string, i: nat): (d: nat)
    ensures d < 10
    ensures i < |code| && IsDigit(code[i]) ==> DigitChar(d) == code[i]
  {
    if i < |code| && IsDigit(code[i]) then (code[i] as int - '0' as int) as nat else 0
  }

  /** The draws that pick the digits of `code` one by one. */
  function DrawsOf(code: string): nat -> nat
  {
    i => DigitAt(code, i)
  }

  /** Every string of digits is a code `GenerateCode` can draw: the draws that pick its digits one by one. */
  lemma EveryCodeDrawable(code: string)
    requires forall i :: 0 <= i < |code| ==> IsDigit(code[i])
    ensures GenerateCode(|code|, DrawsOf(code)) == code
  {
    var r := GenerateCode(|code|, DrawsOf(code));
    forall i | 0 <= i < |code| ensures r[i] == code[i] {
      assert DrawsOf(code)(i) == DigitAt(code, i);
    }
    assert r == code;
  }

  /** The stored code of one e-mail and the instant it stops being accepted. */
  datatype ResetRecord = ResetRecord(code: string, expires: nat)

  const INVALID_CODE: Reply := Reply(400, "Invalid reset code")
  const EXPIRED_CODE: Reply := Reply(400, "Reset code expired")

  /**
   * The check both reset routes make: no record or another code is
   * invalid; a matching code is expired only strictly after its expiry
   * instant.
   */
  function CodeError(codes: map<string, ResetRecord>, email: string, code: string, now: nat): (r: Option<Reply>)
    ensures r.None? <==> email in codes && codes[email].code == code && now <= codes[email].expires
    ensures r == Some(EXPIRED_CODE) <==> email in codes && codes[email].code == code && now > codes[email].expires
    ensures r.Some? ==> r == Some(INVALID_CODE) || r == Some(EXPIRED_CODE)
  {
    if email !in codes || codes[email].code != code then Some(INVALID_CODE)
    else if now > codes[email].expires then Some(EXPIRED_CODE)
    else None
  }

  /** The module-level `reset_codes` dictionary and the routes that use it. */
  class ResetCodes {
    var codes: map<string, ResetRecord>

    constructor ()
      ensures codes == map[]
    {
      codes := map[];
    }

    /**
     * `forgot_password`: an empty e-mail (400); an unknown e-mail answers
     * 200 and stores nothing; a known one gets a fresh code valid for 15
     * minutes, replacing any earlier code, and the code stays stored even
     * when the mail cannot be sent (500).
     */
    method ForgotPassword(db: Database, email: Option<string>, pick: nat -> nat, now: nat, mailFails: bool)
      returns (reply: Reply)
      modifies this
      ensures ResetEmail(email) == [] ==> reply == Reply(400, "Email is required") && codes == old(codes)
      ensures ResetEmail(email) != [] && FindByEmail(db.users, ResetEmail(email)).None?
              ==> reply == Reply(200, "If the email exists, a reset code has been sent") && codes == old(codes)
      ensures ResetEmail(email) != [] && FindByEmail(db.users, ResetEmail(email)).Some?
              ==> codes == old(codes)[ResetEmail(email) := ResetRecord(GenerateCode(CODE_LENGTH, pick), now + CODE_LIFETIME)]
                  && reply == (if mailFails then Reply(500, "Failed to send reset code email")
                               else Reply(200, "Reset code sent to your email"))
    {
      var address := ResetEmail(email);
      if address == [] {
        return Reply(400, "Email is required");
      }
      var user := FindByEmail(db.users, address);
      if user.None? {
        return Reply(200, "If the email exists, a reset code has been sent");
      }
      var code := GenerateCode(CODE_LENGTH, pick);
      Store(address, ResetRecord(code, now + CODE_LIFETIME));
      if mailFails {
        return Reply(500, "Failed to send reset code email");
      }
      reply := Reply(200, "Reset code sent to your email");
    }

    /** Stores `record` as the code of `address`, replacing any earlier one. */
    method Store(address: string, record: ResetRecord)
      modifies this
      ensures codes == old(codes)[address := record]
    {
      codes := codes[address := record];
    }

    /** `reset_codes.pop(email, None)`: forgets the code of one address, if it has one. */
    method Consume(address: string)
      modifies this
      ensures codes == old(codes) - {address}
    {
      codes := codes - {address};
    }

    /** `verify_reset_code`: checks a code and leaves the store as it is. */
    method VerifyResetCode(email: Option<string>, code: Option<string>, now: nat) returns (reply: Reply)
      ensures ResetEmail(email) == [] || Strip(OrEmpty(code)) == [] ==> reply == Reply(400, "Email and code are required")
      ensures ResetEmail(email) != [] && Strip(OrEmpty(code)) != [] ==>
                reply == match CodeError(codes, ResetEmail(email), Strip(OrEmpty(code)), now)
                         case Some(error) => error
                         case None => Reply(200, "Code verified")
    {
      var address := ResetEmail(email);
      var given := Strip(OrEmpty(code));
      if address == [] || given == [] {
        return Reply(400, "Email and code are required");
      }
      var error := CodeError(codes, address, given, now);
      if error.Some? {
        return error.value;
      }
      reply := Reply(200, "Code verified");
    }

    /**
     * `reset_password`: the same checks as verification, then an unknown
     * account (404); otherwise the account's password hash is replaced and
     * the code is removed, so it authorises one reset only.
     */
    method ResetPassword(db: Database, email: Option<string>, code: Option<string>, newPassword: Option<string>,
                         now: nat, hash: string -> string) returns (reply: Reply)
      requires db.Valid()
      modifies this, db
      ensures db.Valid()
      ensures ResetEmail(email) == [] || Strip(OrEmpty(code)) == [] || OrEmpty(newPassword) == []
              ==> reply == Reply(400, "All fields are required")
      ensures ResetEmail(email) != [] && Strip(OrEmpty(code)) != [] && OrEmpty(newPassword) != []
              && CodeError(old(codes), ResetEmail(email), Strip(OrEmpty(code)), now).Some?
              ==> reply == CodeError(old(codes), ResetEmail(email), Strip(OrEmpty(code)), now).value
      ensures ResetEmail(email) != [] && Strip(OrEmpty(code)) != [] && OrEmpty(newPassword) != []
              && CodeError(old(codes), ResetEmail(email), Strip(OrEmpty(code)), now).None?
              && FindByEmail(old(db.users), ResetEmail(email)).None?
              ==> reply == Reply(404, "User not found")
      ensures reply.code == 200 <==>
                ResetEmail(email) != [] && Strip(OrEmpty(code)) != [] && OrEmpty(newPassword) != []
                && CodeError(old(codes), ResetEmail(email), Strip(OrEmpty(code)), now).None?
                && FindByEmail(old(db.users), ResetEmail(email)).Some?
      ensures reply.code != 200 ==> codes == old(codes) && unchanged(db)
      ensures reply.code == 200 ==>
                var i := EmailIndex(old(db.users), ResetEmail(email)).value;
                reply == Reply(200, "Password reset successfully")
                && CodeError(old(codes), ResetEmail(email), Strip(OrEmpty(code)), now).None?
                && codes == old(codes) - {ResetEmail(email)}
                && db.users == old(db.users)[i := old(db.users)[i].(passwordHash := hash(OrEmpty(newPassword)))]
                && db.profiles == old(db.profiles) && db.connections == old(db.connections)
                && db.messages == old(db.messages) && db.notifications == old(db.notifications)
      ensures reply.code == 200 ==> CodeError(codes, ResetEmail(email), Strip(OrEmpty(code)), now) == Some(INVALID_CODE)
      ensures db.challenges == old(db.challenges)
      ensures db.nextUserId == old(db.nextUserId) && db.nextConnectionId == old(db.nextConnectionId)
      ensures db.nextMessageId == old(db.nextMessageId) && db.nextNotificationId == old(db.nextNotificationId)
    {
      var address := ResetEmail(email);
      var given := Strip(OrEmpty(code));
      var secret := OrEmpty(newPassword);
      if address == [] || given == [] || secret == [] {
        return Reply(400, "All fields are required");
      }
      var error := CodeError(codes, address, given, now);
      if error.Some? {
        return error.value;
      }
      var index := EmailIndex(db.users, address);
      if index.None? {
        return Reply(404, "User not found");
      }
      SetPasswordHash(db, index.value, hash(secret));
      Consume(address);
      ConsumedCodeInvalid(old(codes), address, given, now);
      reply := Reply(200, "Password reset successfully");
    }
  }

  /** `user.password_hash = …`: replaces one account's hash and nothing else. */
  method SetPasswordHash(db: Database, i: nat, passwordHash: string)
    requires db.Valid() && i < |db.users|
    modifies db
    ensures db.Valid()
    ensures db.users == old(db.users)[i := old(db.users)[i].(passwordHash := passwordHash)]
    ensures db.profiles == old(db.profiles) && db.connections == old(db.connections)
    ensures db.messages == old(db.messages) && db.notifications == old(db.notifications)
    ensures db.challenges == old(db.challenges) && db.nextUserId == old(db.nextUserId)
    ensures db.nextConnectionId == old(db.nextConnectionId) && db.nextMessageId == old(db.nextMessageId)
    ensures db.nextNotificationId == old(db.nextNotificationId)
  {
    var user := db.users[i];
    assert user in db.users;
    db.users := db.users[i := user.(passwordHash := passwordHash)];
    assert forall u :: u in db.users ==> u in old(db.users) || u.id == user.id;
  }

  /**
   * A code issued at `issued` is accepted by every check up to and
   * including `issued + CODE_LIFETIME` and refused as expired afterwards.
   */
  lemma IssuedCodeLifetime(codes: map<string, ResetRecord>, email: string, code: string, issued: nat, now: nat)
    ensures var codes' := codes[email := ResetRecord(code, issued + CODE_LIFETIME)];
            (CodeError(codes', email, code, now).None? <==> now <= issued + CODE_LIFETIME)
            && (now > issued + CODE_LIFETIME ==> CodeError(codes', email, code, now) == Some(EXPIRED_CODE))
  {
  }

  /** Once the code of an address is removed, any code given for it is refused as invalid. */
  lemma ConsumedCodeInvalid(codes: map<string, ResetRecord>, email: string, code: string, now: nat)
    ensures CodeError(codes - {email}, email, code, now) == Some(INVALID_CODE)
  {
  }

  /** A later code replaces the earlier one: the earlier code is refused once the later one is issued. */
  lemma ReissueInvalidatesEarlier(codes: map<string, ResetRecord>, email: string, first: string, second: string,
                                  issued: nat, now: nat)
    requires first != second
    ensures CodeError(codes[email := ResetRecord(second, issued + CODE_LIFETIME)], email, first, now) == Some(INVALID_CODE)
  {
  }
}
