/**
 * The user routes of server/routes/userRoute.js: the server's password
 * pattern, and the check-email, register and login handlers over an abstract
 * list of users.  Hashing, hash comparison and token signing are oracles: the
 * hash and the comparison are function parameters, and a signed token is
 * represented by the claims it carries and its lifetime.
 */
module UserRoutes {
  import opened Js
  import opened Regex

  // ---------------------------------------------------------------------------
  // validatePassword
  // ---------------------------------------------------------------------------

  /**
   * `/^(?=.*[a-z])(?=.*[A-Z])(?=.*\W).{6,15}$/`, read as it is written: three
   * lookaheads from the start, then 6 to 15 characters that are not line
   * terminators, up to the end of the input.
   */
  predicate ValidatePassword(p: string)
  {
    Ahead(p, Lower) && Ahead(p, Upper) && Ahead(p, NonWord)
    && 6 <= |p| <= 15 && SingleLine(p)
  }

  /** The rule the pattern states, in plain terms. */
  predicate ServerPasswordRule(p: string)
  {
    6 <= |p| <= 15 && SingleLine(p)
    && Contains(p, Lower) && Contains(p, Upper) && Contains(p, NonWord)
  }

  /**
   * The pattern holds exactly for single-line passwords of 6 to 15 characters
   * with a lower-case letter, an upper-case letter and a character outside
   * `[A-Za-z0-9_]`.
   */
  lemma ValidatePasswordIsRule(p: string)
    ensures ValidatePassword(p) <==> ServerPasswordRule(p)
  {
    if SingleLine(p) {
      AheadOnOneLine(p, Lower);
      AheadOnOneLine(p, Upper);
      AheadOnOneLine(p, NonWord);
    }
  }

  /** A line break inside the password makes the pattern fail, even though `\W` matches it. */
  lemma LineBreakRejected()
    ensures !ValidatePassword("aB\ncdef")
    ensures ValidatePassword("aB!cdef")
  {
    var bad := "aB\ncdef";
    assert IsLineTerminator(bad[2]);
    var good := "aB!cdef";
    assert InClass(good[0], Lower) && InClass(good[1], Upper) && InClass(good[2], NonWord);
    assert SingleLine(good);
  }

  // ---------------------------------------------------------------------------
  // Users and tokens
  // ---------------------------------------------------------------------------

  /** A stored user. */
  datatype User = User(id: nat, name: string, email: string, passwordHash: string, role: string)

  /** The user as the register answer shows it: no password. */
  datatype PublicUser = PublicUser(id: nat, name: string, email: string, role: string)

  /** The claims a token is signed with. */
  datatype Claims =
    | RegisterClaims(id: nat, role: string)
    | LoginClaims(id: nat, name: string, email: string, role: string)

  /** A token from `jwt.sign`: its claims and its lifetime in seconds. */
  datatype Token = Signed(claims: Claims, lifetime: nat)

  /** `expiresIn: "7d"`. */
  const SevenDays: nat := 7 * 24 * 60 * 60

  const MemberRole := "member"

  /** `User.findOne({ email })`: the first user with that e-mail. */
  function FindByEmail(users: seq<User>, email: string): (r: Option<User>)
    ensures r.Some? ==> exists i :: 0 <= i < |users| && users[i] == r.value && r.value.email == email
                                    && forall j :: 0 <= j < i ==> users[j].email != email
    ensures r.None? <==> forall i :: 0 <= i < |users| ==> users[i].email != email
  {
    match FindIndex(users, (u: User) => u.email == email)
    case Some(i) => Some(users[i])
    case None => None
  }

  /** A user appended after every user with another e-mail is the first with its own. */
  lemma FindAppended(users: seq<User>, u: User)
    requires forall i :: 0 <= i < |users| ==> users[i].email != u.email
    ensures FindByEmail(users + [u], u.email) == Some(u)
  {
    var all := users + [u];
    var r := FindByEmail(all, u.email);
    assert all[|users|] == u;
    var i :| 0 <= i < |all| && all[i] == r.value && r.value.email == u.email
             && forall j :: 0 <= j < i ==> all[j].email != u.email;
  }

  // ---------------------------------------------------------------------------
  // Replies
  // ---------------------------------------------------------------------------

  datatype Body =
    | StatusJson(status: string, message: string)
    | MessageJson(message: string)
    | RegisteredJson(token: Token, user: PublicUser)
    | LoggedInJson(status: string, token: Token)

  datatype Reply = Reply(code: nat, body: Body)

  const TakenMessage := "Email is already registered"
  const AvailableMessage := "Email is available"
  const ServerErrorMessage := "Server error"
  const ExistsMessage := "User already exists"
  const FailureMessage := "Something went wrong"
  const InvalidMessage := "Invalid email or password"

  /**
   * `GET /check-email`: an error status for a registered e-mail, ok
   * otherwise, both with code 200; a failing store is answered 500.
   */
  function CheckEmail(users: seq<User>, email: string, storeFails: bool): (r: Reply)
    ensures storeFails ==> r == Reply(500, StatusJson("error", ServerErrorMessage))
    ensures !storeFails ==> r.code == 200 && r.body.StatusJson?
    ensures !storeFails ==> (r.body.status == "ok" <==> forall i :: 0 <= i < |users| ==> users[i].email != email)
    ensures !storeFails ==> (r.body.message == TakenMessage <==> r.body.status == "error")
    ensures !storeFails && (exists i :: 0 <= i < |users| && users[i].email == email) ==>
      r == Reply(200, StatusJson("error", TakenMessage))
    ensures !storeFails && (forall i :: 0 <= i < |users| ==> users[i].email != email) ==>
      r == Reply(200, StatusJson("ok", AvailableMessage))
  {
    if storeFails then Reply(500, StatusJson("error", ServerErrorMessage))
    else if FindByEmail(users, email).Some? then Reply(200, StatusJson("error", TakenMessage))
    else Reply(200, StatusJson("ok", AvailableMessage))
  }

  /** The register body; a `role` in it is read by nobody. */
  datatype RegisterRequest = RegisterRequest(name: string, email: string, password: string, role: Option<string>)

  /** What a register call answers and the users it leaves. */
  datatype Registration = Registration(reply: Reply, users: seq<User>)

  /**
   * `POST /register`: an e-mail already in use is answered 400 and nothing
   * is stored; otherwise the user is stored with the hashed password and the
   * role "member", and answered 201 with a token that carries the id and the
   * role.  No password rule is applied.
   */
  function Register(users: seq<User>, req: RegisterRequest, newId: nat, hash: string -> string, storeFails: bool)
    : (r: Registration)
    ensures storeFails ==> r == Registration(Reply(500, MessageJson(FailureMessage)), users)
    ensures !storeFails && FindByEmail(users, req.email).Some? ==>
      r == Registration(Reply(400, MessageJson(ExistsMessage)), users)
    ensures !storeFails && FindByEmail(users, req.email).None? ==>
      r.users == users + [User(newId, req.name, req.email, hash(req.password), MemberRole)]
      && r.reply == Reply(201, RegisteredJson(Signed(RegisterClaims(newId, MemberRole), SevenDays),
                                              PublicUser(newId, req.name, req.email, MemberRole)))
  {
    if storeFails then Registration(Reply(500, MessageJson(FailureMessage)), users)
    else if FindByEmail(users, req.email).Some? then Registration(Reply(400, MessageJson(ExistsMessage)), users)
    else
      var u := User(newId, req.name, req.email, hash(req.password), MemberRole);
      Registration(
        Reply(201, RegisteredJson(Signed(RegisterClaims(u.id, u.role), SevenDays), PublicUser(u.id, u.name, u.email, u.role))),
        users + [u])
  }

  /** A new user is a member whatever role the request names, and the password is never checked against the pattern. */
  lemma RegisterIgnoresRoleAndRule(users: seq<User>, req: RegisterRequest, newId: nat, hash: string -> string)
    requires forall i :: 0 <= i < |users| ==> users[i].email != req.email
    ensures Register(users, req, newId, hash, false).reply.code == 201
    ensures Register(users, req, newId, hash, false).users[|users|].role == MemberRole
    ensures Register(users, req, newId, hash, false) == Register(users, req.(role := Some("admin")), newId, hash, false)
  {
  }

  /** A password the server pattern rejects is still accepted by register. */
  lemma WeakPasswordRegisters(hash: string -> string)
    ensures !ValidatePassword("a")
    ensures Register([], RegisterRequest("n", "e", "a", None), 0, hash, false).reply.code == 201
  {
  }

  /**
   * `POST /login`: an unknown e-mail and a wrong password get the same 400
   * answer; otherwise a token carrying id, name, e-mail and role.
   */
  function Login(users: seq<User>, email: string, password: string, matches: (string, string) -> bool, storeFails: bool)
    : (r: Reply)
    ensures storeFails ==> r == Reply(500, MessageJson(FailureMessage))
    ensures !storeFails ==> (r.code == 200 <==> exists u :: FindByEmail(users, email) == Some(u) && matches(password, u.passwordHash))
    ensures !storeFails && r.code != 200 ==> r == Reply(400, MessageJson(InvalidMessage))
    ensures !storeFails && r.code == 200 ==>
      var u := FindByEmail(users, email).value;
      r == Reply(200, LoggedInJson("ok", Signed(LoginClaims(u.id, u.name, u.email, u.role), SevenDays)))
  {
    if storeFails then Reply(500, MessageJson(FailureMessage))
    else match FindByEmail(users, email)
      case None => Reply(400, MessageJson(InvalidMessage))
      case Some(u) =>
        if !matches(password, u.passwordHash) then Reply(400, MessageJson(InvalidMessage))
        else Reply(200, LoggedInJson("ok", Signed(LoginClaims(u.id, u.name, u.email, u.role), SevenDays)))
  }

  /** The answer does not tell an unknown e-mail from a wrong password. */
  lemma LoginHidesWhichFailed(users: seq<User>, unknown: string, known: string, wrong: string, matches: (string, string) -> bool)
    requires forall i :: 0 <= i < |users| ==> users[i].email != unknown
    requires FindByEmail(users, known).Some? && !matches(wrong, FindByEmail(users, known).value.passwordHash)
    ensures Login(users, unknown, wrong, matches, false) == Login(users, known, wrong, matches, false)
  {
  }

  /**
   * Registering and then logging in with the same e-mail and password
   * succeeds when the comparison accepts a password against its own hash,
   * and the login token names the new member.
   */
  lemma RegisterThenLogin(users: seq<User>, req: RegisterRequest, newId: nat, hash: string -> string, matches: (string, string) -> bool)
    requires forall i :: 0 <= i < |users| ==> users[i].email != req.email
    requires forall p :: matches(p, hash(p))
    ensures
      var after := Register(users, req, newId, hash, false).users;
      Login(after, req.email, req.password, matches, false)
      == Reply(200, LoggedInJson("ok", Signed(LoginClaims(newId, req.name, req.email, MemberRole), SevenDays)))
  {
    var u := User(newId, req.name, req.email, hash(req.password), MemberRole);
    FindAppended(users, u);
  }
}
