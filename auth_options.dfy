/**
 * The NextAuth configuration: the credentials `authorize` mapping, the
 * `jwt` and `session` callbacks, and the cookie and session settings.
 */
module AuthOptions {
  import opened Wrappers

  /** A JavaScript property value: `undefined`, or a string. */
  datatype Value = Undefined | Text(s: string)

  /** A plain object; reading a key that is not there gives `undefined`. */
  type Record = map<string, Value>

  function Get(r: Record, key: string): Value
  {
    if key in r then r[key] else Undefined
  }

  /** The four claims both callbacks copy. */
  const Claims: set<string> := {"id", "accessToken", "refreshToken", "role"}

  /**
   * `{...base, id: from.id, accessToken: from.accessToken, refreshToken:
   * from.refreshToken, role: from.role}`: a spread followed by four
   * explicit properties, which exist even when their value is `undefined`.
   */
  function Overlay(base: Record, from: Record): (r: Record)
    ensures forall k :: k in Claims ==> k in r && r[k] == Get(from, k)
    ensures forall k :: k !in Claims ==> (k in r <==> k in base)
    ensures forall k :: k !in Claims && k in base ==> r[k] == base[k]
  {
    base["id" := Get(from, "id")]["accessToken" := Get(from, "accessToken")]
        ["refreshToken" := Get(from, "refreshToken")]["role" := Get(from, "role")]
  }

  /** Overlaying the same source twice changes nothing more. */
  lemma OverlayIdempotent(base: Record, from: Record)
    ensures Overlay(Overlay(base, from), from) == Overlay(base, from)
  {
    var once := Overlay(base, from);
    var twice := Overlay(once, from);
    assert forall k :: k in twice <==> k in once;
    assert forall k :: k in twice ==> twice[k] == once[k];
  }

  /** The `jwt` callback: at sign-in (a user object is present) copy its claims into the token. */
  function Jwt(token: Record, user: Option<Record>): (r: Record)
    ensures user.None? ==> r == token
    ensures user.Some? ==> forall k :: k in Claims ==> Get(r, k) == Get(user.value, k)
    ensures forall k :: k !in Claims ==> Get(r, k) == Get(token, k)
  {
    if user.Some? then Overlay(token, user.value) else token
  }

  /** The session object the `session` callback receives and mutates. */
  class Session {
    var user: Record

    constructor(user: Record)
      ensures this.user == user
    {
      this.user := user;
    }
  }

  /** The `session` callback: the session's user gets the token's claims and keeps its other fields. */
  method SessionCallback(session: Session, token: Record) returns (result: Session)
    modifies session
    ensures result == session
    ensures session.user == Overlay(old(session.user), token)
  {
    session.user := Overlay(session.user, token);
    result := session;
  }

  /** After sign-in, a session built from the token carries the signed-in user's claims. */
  lemma SignInReachesSession(token: Record, user: Record, sessionUser: Record)
    ensures forall k :: k in Claims ==> Get(Overlay(sessionUser, Jwt(token, Some(user))), k) == Get(user, k)
    ensures forall k :: k !in Claims ==> Get(Overlay(sessionUser, Jwt(token, Some(user))), k) == Get(sessionUser, k)
  {
  }

  /** A later `jwt` call without a user keeps the claims copied at sign-in. */
  lemma LaterJwtKeepsClaims(token: Record, user: Record)
    ensures Jwt(Jwt(token, Some(user)), None) == Jwt(token, Some(user))
  {
  }

  /** The login endpoint's `data.data`, when it is an object. */
  datatype LoginPayload = LoginPayload(user: Option<Record>, accessToken: Value, refreshToken: Value)

  /** The parsed login JSON: `data.message` and `data.data`. */
  datatype LoginJson = LoginJson(message: Option<string>, data: Option<LoginPayload>)

  /** The login call: a thrown `fetch`, a body that is not JSON, or a reply with its parsed JSON. */
  datatype LoginReply = FetchThrew | NotJson | LoginResponse(ok: bool, json: LoginJson)

  /** The seven fields `authorize` returns. */
  const AuthorizedFields: set<string> := {"id", "name", "email", "image", "role", "accessToken", "refreshToken"}

  /**
   * `authorize`: every failure, including reading a property of a missing
   * `data.data` or `data.data.user`, is caught and gives `null`.
   */
  function Authorize(reply: LoginReply): (r: Option<Record>)
    ensures r.Some? <==> reply.LoginResponse? && reply.ok && reply.json.data.Some? && reply.json.data.value.user.Some?
    ensures r.Some? ==> r.value.Keys == AuthorizedFields
    ensures r.Some? ==> forall k :: k in {"id", "name", "email", "image", "role"} ==>
              r.value[k] == Get(reply.json.data.value.user.value, k)
    ensures r.Some? ==> r.value["accessToken"] == reply.json.data.value.accessToken
    ensures r.Some? ==> r.value["refreshToken"] == reply.json.data.value.refreshToken
  {
    match reply
    case FetchThrew => None
    case NotJson => None
    case LoginResponse(ok, json) =>
      if !ok then None
      else match json.data
        case None => None
        case Some(payload) =>
          match payload.user
          case None => None
          case Some(user) =>
            Some(map["id" := Get(user, "id"), "name" := Get(user, "name"), "email" := Get(user, "email"),
                     "image" := Get(user, "image"), "role" := Get(user, "role"),
                     "accessToken" := payload.accessToken, "refreshToken" := payload.refreshToken])
  }

  /** `maxAge` of the session cookie: 30 days in seconds. */
  const SessionCookieMaxAge: int := 30 * 24 * 60 * 60

  /** `session.maxAge`: written as 30 days times 30. */
  const SessionMaxAge: int := 30 * 24 * 60 * 60 * 30

  /** The cookie lasts 30 days, and the session 30 times as long. */
  lemma Lifetimes()
    ensures SessionCookieMaxAge == 2592000
    ensures SessionMaxAge == 77760000
    ensures SessionMaxAge == 30 * SessionCookieMaxAge
  {
  }

  /** One cookie's settings. */
  datatype Cookie = Cookie(name: string, httpOnly: bool, sameSite: string, path: string, secure: bool, maxAge: Option<int>)

  /** `process.env.NODE_ENV === "production"`. */
  predicate Production(nodeEnv: Option<string>)
  {
    nodeEnv == Some("production")
  }

  /** The three cookies: session token, callback URL and CSRF token. */
  function Cookies(nodeEnv: Option<string>): (cs: seq<Cookie>)
    ensures |cs| == 3
    ensures forall i :: 0 <= i < 3 ==> cs[i].secure == Production(nodeEnv)
    ensures forall i :: 0 <= i < 3 ==> cs[i].sameSite == "lax" && cs[i].path == "/"
    ensures cs[0].name == "next-auth.session-token" && cs[0].httpOnly && cs[0].maxAge == Some(SessionCookieMaxAge)
    ensures cs[1].name == "next-auth.callback-url" && !cs[1].httpOnly && cs[1].maxAge.None?
    ensures cs[2].name == "next-auth.csrf-token" && cs[2].httpOnly && cs[2].maxAge.None?
  {
    var secure := Production(nodeEnv);
    [ Cookie("next-auth.session-token", true, "lax", "/", secure, Some(SessionCookieMaxAge)),
      Cookie("next-auth.callback-url", false, "lax", "/", secure, None),
      Cookie("next-auth.csrf-token", true, "lax", "/", secure, None) ]
  }

  /** `debug` is on only in development. */
  function Debug(nodeEnv: Option<string>): (on: bool)
    ensures on ==> !Production(nodeEnv)
  {
    nodeEnv == Some("development")
  }
}
