/**
 * The middleware of server/middleware/auth.js.  `verifyToken` reads the
 * Authorization header, verifies the bearer token and records the user it
 * names on the request before handing on; `verifyAdmin` lets only an
 * administrator through.  Token verification is an oracle from the token
 * text to the user id it carries, if it verifies.
 */
module AuthMiddleware {
  import opened Js
  import UserRoutes

  /** A refusal: the status code and the message of the `{status: "error", message}` body. */
  datatype Denial = Denial(code: nat, message: string)

  const MissingMessage := "Authorization token missing!"
  const InvalidMessage := "Invalid or expired token!"
  const AdminMessage := "Admin access required by you!"
  const BearerPrefix := "Bearer "

  /**
   * `authHeader.split(" ")[1]`: the text after the first space up to the next
   * one, or to the end.
   */
  function BearerToken(header: string): (token: string)
    requires ' ' in header
    ensures ' ' !in token
  {
    var parts := Split(header, ' ');
    assert |parts| != 1;
    parts[1]
  }

  /** After the prefix, the token is what comes before the next space. */
  lemma BearerTokenAfterPrefix(t: string)
    ensures BearerToken(BearerPrefix + t) == Split(t, ' ')[0]
  {
    var h := BearerPrefix + t;
    assert IndexOf(h, ' ') == Some(6) by {
      assert h[6] == ' ';
      assert forall j :: 0 <= j < 6 ==> h[j] != ' ';
    }
    assert h[7..] == t;
    assert Split(h, ' ') == [h[..6]] + Split(t, ' ');
  }

  /** A token without spaces is taken whole. */
  lemma PlainBearerToken()
    ensures BearerToken("Bearer abc") == "abc"
  {
    assert "Bearer abc" == BearerPrefix + "abc";
    BearerTokenAfterPrefix("abc");
    assert IndexOf("abc", ' ') == None;
  }

  /** Nothing after "Bearer " gives the empty token, which is handed to verification rather than counting as missing. */
  lemma EmptyBearerToken()
    ensures BearerToken("Bearer ") == ""
  {
    assert "Bearer " == BearerPrefix + "";
    BearerTokenAfterPrefix("");
  }

  /** `User.findById(id).select("-password")`: the user with that id, without the password, or null. */
  function FindById(users: seq<UserRoutes.User>, id: nat): (r: Option<UserRoutes.PublicUser>)
    ensures r.Some? ==> r.value.id == id
    ensures r.Some? ==>
      exists i :: (0 <= i < |users| && users[i].id == id
                   && (forall j :: 0 <= j < i ==> users[j].id != id)
                   && r.value == UserRoutes.PublicUser(users[i].id, users[i].name, users[i].email, users[i].role))
    ensures r.None? <==> forall i :: 0 <= i < |users| ==> users[i].id != id
  {
    match FindIndex(users, (u: UserRoutes.User) => u.id == id)
    case Some(i) =>
      var u := users[i];
      Some(UserRoutes.PublicUser(u.id, u.name, u.email, u.role))
    case None => None
  }

  /** The request as the middleware sees it: the header, the user it records, and how often `next` was called. */
  class Request {
    const authorization: Option<string>
    var user: Option<UserRoutes.PublicUser>
    var nextCalls: nat

    constructor (authorization: Option<string>)
      ensures this.authorization == authorization && user.None? && nextCalls == 0
    {
      this.authorization := authorization;
      user := None;
      nextCalls := 0;
    }
  }

  /**
   * `verifyToken`: a header that is missing or does not start with exactly
   * "Bearer " is refused 401 as missing; a token that does not verify is
   * refused 401 as invalid; otherwise the user the token names, or nothing
   * when there is no such user, is recorded and `next` is called once.
   */
  method VerifyToken(req: Request, verify: string -> Option<nat>, users: seq<UserRoutes.User>) returns (denial: Option<Denial>)
    modifies req
    ensures req.authorization.None? || !StartsWith(req.authorization.value, BearerPrefix) ==>
      denial == Some(Denial(401, MissingMessage)) && req.user == old(req.user) && req.nextCalls == old(req.nextCalls)
    ensures req.authorization.Some? && StartsWith(req.authorization.value, BearerPrefix) ==>
      var h := req.authorization.value;
      ' ' in h
      && (verify(BearerToken(h)).None? ==>
            denial == Some(Denial(401, InvalidMessage)) && req.user == old(req.user) && req.nextCalls == old(req.nextCalls))
      && (verify(BearerToken(h)).Some? ==>
            denial.None? && req.user == FindById(users, verify(BearerToken(h)).value)
            && req.nextCalls == old(req.nextCalls) + 1)
  {
    var header := req.authorization;
    if header.None? || !StartsWith(header.value, BearerPrefix) {
      return Some(Denial(401, MissingMessage));
    }
    assert header.value[6] == ' ';
    var token := BearerToken(header.value);
    var decoded := verify(token);
    if decoded.None? {
      return Some(Denial(401, InvalidMessage));
    }
    req.user := FindById(users, decoded.value);
    req.nextCalls := req.nextCalls + 1;
    denial := None;
  }

  /** `verifyAdmin`: refused 403 unless a user is recorded and its role is exactly "admin". */
  function VerifyAdmin(user: Option<UserRoutes.PublicUser>): (denial: Option<Denial>)
    ensures denial.None? <==> user.Some? && user.value.role == "admin"
    ensures denial.Some? ==> denial.value == Denial(403, AdminMessage)
  {
    if user.None? || user.value.role != "admin" then Some(Denial(403, AdminMessage)) else None
  }

  /**
   * A verified token whose user no longer exists still passes `verifyToken`,
   * and the admin gate then refuses the request because no user is recorded.
   */
  lemma VanishedUserStopsAtAdmin(users: seq<UserRoutes.User>, id: nat)
    requires forall i :: 0 <= i < |users| ==> users[i].id != id
    ensures FindById(users, id).None?
    ensures VerifyAdmin(FindById(users, id)) == Some(Denial(403, AdminMessage))
  {
  }

  /** A member never passes the admin gate; an administrator always does. */
  lemma AdminGateByRole(u: UserRoutes.PublicUser)
    ensures VerifyAdmin(Some(u.(role := UserRoutes.MemberRole))).Some?
    ensures VerifyAdmin(Some(u.(role := "admin"))).None?
  {
  }
}
