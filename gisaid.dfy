/** The GISAID client: password hashing, the request envelope, the authentication-token request
    and the logon/upload/logoff session. The HTTP exchange is a recorded trace of sent commands
    and a script of replies. */
module Gisaid {
  import opened Wrappers
  import opened Json
  import opened Enums
  import opened Models

  // ---------------------------------------------------------------------------------------
  // Password hashing

  /** `_hash_password` with the salt `secrets.token_urlsafe(64)` drawn by the caller and the
      hex SHA-512 digest given as `sha512Hex`. */
  function HashPassword(password: string, salt: string, sha512Hex: string -> string): string {
    salt + "/" + sha512Hex(salt + sha512Hex(password))
  }

  /** The alphabet of `token_urlsafe`: URL-safe base64 (section 5 of RFC 4648), no padding. */
  predicate UrlSafe(salt: string) {
    forall i | 0 <= i < |salt| ::
      'A' <= salt[i] <= 'Z' || 'a' <= salt[i] <= 'z' || '0' <= salt[i] <= '9' || salt[i] == '-' || salt[i] == '_'
  }

  /** The position of the first `c` in `s`, or -1. */
  function IndexOf(s: string, c: char): (r: int)
    ensures -1 <= r < |s|
    ensures r >= 0 ==> s[r] == c && c !in s[..r]
    ensures r == -1 ==> c !in s
  {
    if s == [] then -1
    else if s[0] == c then 0
    else
      var i := IndexOf(s[1..], c);
      if i < 0 then -1
      else
        assert s[..i + 1] == [s[0]] + s[1..][..i];
        i + 1
  }

  /** Splits a hashed password at its first `/` into salt and digest, as the server reads it. */
  function SplitHash(hashed: string): (r: Option<(string, string)>)
    ensures r.Some? ==> hashed == r.value.0 + "/" + r.value.1 && '/' !in r.value.0
    ensures r.None? <==> '/' !in hashed
  {
    var i := IndexOf(hashed, '/');
    if i < 0 then None
    else
      assert hashed == hashed[..i] + "/" + hashed[i + 1..];
      Some((hashed[..i], hashed[i + 1..]))
  }

  /** The salt is recovered from the text before the first `/` of the hashed password. */
  lemma SaltRecoverable(password: string, salt: string, sha512Hex: string -> string)
    requires UrlSafe(salt)
    ensures SplitHash(HashPassword(password, salt, sha512Hex)) == Some((salt, sha512Hex(salt + sha512Hex(password))))
  {
    var hashed := HashPassword(password, salt, sha512Hex);
    assert '/' !in salt by {
      forall i | 0 <= i < |salt| ensures salt[i] != '/' {
      }
    }
    assert hashed[..|salt|] == salt;
    assert hashed[|salt|] == '/';
  }

  /** A server that stores the digest of the password accepts the hashed password. */
  predicate Accepts(hashed: string, storedDigest: string, sha512Hex: string -> string) {
    match SplitHash(hashed)
    case None => false
    case Some(parts) => sha512Hex(parts.0 + storedDigest) == parts.1
  }

  lemma ServerAcceptsHash(password: string, salt: string, sha512Hex: string -> string)
    requires UrlSafe(salt)
    ensures Accepts(HashPassword(password, salt, sha512Hex), sha512Hex(password), sha512Hex)
  {
    SaltRecoverable(password, salt, sha512Hex);
  }

  // ---------------------------------------------------------------------------------------
  // The envelope and the wire

  const ApiVersion: Value := JObject(map["version" := JNumber(1)])

  /** `data.update({"api": {"version": 1}, "ctx": database.value})`. */
  function WithEnvelope(data: Object, database: Database): (r: Object)
    ensures r.Keys == data.Keys + {"api", "ctx"}
    ensures r["api"] == ApiVersion && r["ctx"] == JString(database.Value())
    ensures forall k | k in data && k != "api" && k != "ctx" :: r[k] == data[k]
  {
    data["api" := ApiVersion]["ctx" := JString(database.Value())]
  }

  /** Adding the envelope twice is adding it once; the second database wins. */
  lemma EnvelopeOverwrites(data: Object, first: Database, second: Database)
    ensures WithEnvelope(WithEnvelope(data, first), second) == WithEnvelope(data, second)
  {
    var a, b := WithEnvelope(WithEnvelope(data, first), second), WithEnvelope(data, second);
    assert a.Keys == b.Keys;
    forall k | k in a ensures a[k] == b[k] {
    }
  }

  /** What the server does with one request: answers with a JSON body, or fails (a connection
      error, a body that is not JSON). The client session does not raise on an HTTP error
      status, so a non-2xx reply with a JSON body is an `Answer`. */
  datatype Reply = Answer(body: Value) | TransportError

  /** The wire seen from the client: every request body sent so far, in order, and the replies
      still to come. */
  datatype Wire = Wire(sent: seq<Object>, replies: seq<Reply>)

  /** Why an operation raised. */
  datatype Error =
    | SessionClosed          // ValueError("Session is closed")
    | RemoteCallFailed       // an aiohttp or JSON decoding exception
    | NotAnObject            // the reply is not a dict, so `.get`, `[...]` or `.pop` fails
    | MissingKey(key: string) // KeyError
    | InvalidValue(field: string) // TypeError from `fromtimestamp` or a pydantic ValidationError

  /** One `call_api`: sends the request with its envelope and takes the next reply. */
  function Call(w: Wire, data: Object, database: Database): (r: (Wire, Result<Value, Error>))
    ensures r.0.sent == w.sent + [WithEnvelope(data, database)]
    ensures r.0.replies == if w.replies == [] then [] else w.replies[1..]
    ensures r.1.Success? <==> w.replies != [] && w.replies[0].Answer?
    ensures r.1.Success? ==> r.1.value == w.replies[0].body
    ensures r.1.Failure? ==> r.1.error == RemoteCallFailed
  {
    var sent := w.sent + [WithEnvelope(data, database)];
    if w.replies == [] then (Wire(sent, []), Failure(RemoteCallFailed))
    else
      var rest := w.replies[1..];
      match w.replies[0]
      case Answer(body) => (Wire(sent, rest), Success(body))
      case TransportError => (Wire(sent, rest), Failure(RemoteCallFailed))
  }

  // ---------------------------------------------------------------------------------------
  // The authentication token

  /** The `state/auth/get_token` command. */
  function TokenCommand(clientId: string, username: string, hashed: string): Object {
    map[
      "cmd" := JString("state/auth/get_token"),
      "client_id" := JString(clientId),
      "login" := JString(username),
      "hash" := JString(hashed)
    ]
  }

  /** `AuthToken(database=..., client_id=..., token=response["auth_token"],
      expiry=datetime.fromtimestamp(response["valid_until"]))`, with the errors in the order
      Python meets them; the expiry is kept as the raw timestamp. */
  function TokenFrom(response: Value, database: Database, clientId: string): (r: Result<AuthToken, Error>)
    ensures r.Success? <==>
      && response.JObject?
      && "auth_token" in response.fields && response.fields["auth_token"].JString?
      && "valid_until" in response.fields
      && (response.fields["valid_until"].JNumber? || response.fields["valid_until"].JBool?)
    ensures r.Success? ==>
      && r.value.database == database && r.value.clientId == clientId
      && JString(r.value.token) == response.fields["auth_token"]
    ensures r.Failure? && response.JObject? && "auth_token" !in response.fields ==>
      r.error == MissingKey("auth_token")
  {
    if !response.JObject? then Failure(NotAnObject)
    else
      var f := response.fields;
      if "auth_token" !in f then Failure(MissingKey("auth_token"))
      else if "valid_until" !in f then Failure(MissingKey("valid_until"))
      else
        var expiry := match f["valid_until"]
          case JNumber(n) => Some(n)
          case JBool(b) => Some(if b then 1 else 0)
          case _ => None;
        if expiry.None? then Failure(InvalidValue("expiry"))
        else if !f["auth_token"].JString? then Failure(InvalidValue("token"))
        else Success(AuthToken(database, clientId, f["auth_token"].s, expiry.value))
  }

  /** `request_auth_token`, as a step on the wire. */
  function AuthTokenStep(w: Wire, database: Database, clientId: string, username: string, password: string,
                         salt: string, sha512Hex: string -> string): (Wire, Result<AuthToken, Error>)
  {
    var hashed := HashPassword(password, salt, sha512Hex);
    var (w', response) := Call(w, TokenCommand(clientId, username, hashed), database);
    match response
    case Failure(e) => (w', Failure(e))
    case Success(v) => (w', TokenFrom(v, database, clientId))
  }

  /** `request_auth_token` makes exactly one call, carrying the command, the client id, the
      login and the hashed password in the database's envelope; a token it returns carries the
      database, the client id and the reply's `auth_token`. */
  lemma AuthTokenRequest(w: Wire, database: Database, clientId: string, username: string, password: string,
                         salt: string, sha512Hex: string -> string)
    ensures var (w', r) := AuthTokenStep(w, database, clientId, username, password, salt, sha512Hex);
      && |w'.sent| == |w.sent| + 1 && w'.sent[..|w.sent|] == w.sent
      && var command := w'.sent[|w.sent|];
      && command["cmd"] == JString("state/auth/get_token")
      && command["client_id"] == JString(clientId)
      && command["login"] == JString(username)
      && command["hash"] == JString(HashPassword(password, salt, sha512Hex))
      && command["ctx"] == JString(database.Value())
      && (r.Success? ==>
            && w.replies != [] && w.replies[0].Answer? && w.replies[0].body.JObject?
            && r.value.database == database && r.value.clientId == clientId
            && w.replies[0].body.fields["auth_token"] == JString(r.value.token))
  {
    var hashed := HashPassword(password, salt, sha512Hex);
    var (w', _) := Call(w, TokenCommand(clientId, username, hashed), database);
    assert w'.sent[..|w.sent|] == w.sent;
  }

  // ---------------------------------------------------------------------------------------
  // The session

  /** The `state/session/logon` command; it already carries the `api` field, which the
      envelope sets again to the same value. */
  function LogonCommand(t: AuthToken): Object {
    map[
      "cmd" := JString("state/session/logon"),
      "api" := ApiVersion,
      "client_id" := JString(t.clientId),
      "auth_token" := JString(t.token)
    ]
  }

  function LogoffCommand(sid: Value): Object {
    map["cmd" := JString("state/session/logoff"), "sid" := sid]
  }

  /** The `data/hcov-19/upload` command: the submission dumped by alias, and its submitter. */
  function UploadCommand(sid: Value, data: Object, submitter: string): Object {
    map[
      "cmd" := JString("data/hcov-19/upload"),
      "sid" := sid,
      "data" := JObject(data),
      "submitter" := JString(submitter)
    ]
  }

  /** `result.get("sid")`: Python's `None` (the key missing or JSON `null`) leaves the session
      closed. */
  function SidOf(result: Value): (r: Result<Option<Value>, Error>)
    ensures r.Failure? <==> !result.JObject?
    ensures r.Success? && r.value.Some? ==> "sid" in result.fields && r.value.value == result.fields["sid"]
    ensures r.Success? ==> (r.value.None? <==> "sid" !in result.fields || result.fields["sid"] == JNull)
  {
    if !result.JObject? then Failure(NotAnObject)
    else if "sid" in result.fields && result.fields["sid"] != JNull then Success(Some(result.fields["sid"]))
    else Success(None)
  }

  /** `open`: the new wire, the new `sid` and whether it raised. */
  function OpenStep(w: Wire, sid: Option<Value>, t: AuthToken): (Wire, Option<Value>, Outcome<Error>) {
    if sid.Some? then (w, sid, Pass)
    else
      var (w', result) := Call(w, LogonCommand(t), t.database);
      match result
      case Failure(e) => (w', sid, Fail(e))
      case Success(v) =>
        match SidOf(v)
        case Failure(e) => (w', sid, Fail(e))
        case Success(s) => (w', s, Pass)
  }

  /** `close`: the reply is not read; a failed call raises before `sid` is cleared. */
  function CloseStep(w: Wire, sid: Option<Value>, t: AuthToken): (Wire, Option<Value>, Outcome<Error>) {
    if sid.None? then (w, sid, Pass)
    else
      var (w', result) := Call(w, LogoffCommand(sid.value), t.database);
      match result
      case Failure(e) => (w', sid, Fail(e))
      case Success(_) => (w', None, Pass)
  }

  /** `submit`, given the submission's dump by alias and its submitter: the reply without its
      `api` field. */
  function SubmitStep(w: Wire, sid: Option<Value>, t: AuthToken, data: Object, submitter: string): (Wire, Result<Object, Error>) {
    if sid.None? then (w, Failure(SessionClosed))
    else
      var (w', result) := Call(w, UploadCommand(sid.value, data, submitter), t.database);
      match result
      case Failure(e) => (w', Failure(e))
      case Success(v) =>
        if v.JObject? then (w', Success(v.fields - {"api"})) else (w', Failure(NotAnObject))
  }

  /** `open` on an open session makes no call and changes nothing. */
  lemma OpenWhenOpen(w: Wire, sid: Option<Value>, t: AuthToken)
    requires sid.Some?
    ensures OpenStep(w, sid, t) == (w, sid, Pass)
  {
  }

  /** `open` on a closed session makes exactly one logon call carrying the token's client id
      and token, then takes `sid` from the reply; without one the session stays closed. */
  lemma OpenWhenClosed(w: Wire, t: AuthToken)
    ensures var (w', sid', r) := OpenStep(w, None, t);
      && w'.sent == w.sent + [WithEnvelope(LogonCommand(t), t.database)]
      && w'.sent[|w.sent|]["client_id"] == JString(t.clientId)
      && w'.sent[|w.sent|]["auth_token"] == JString(t.token)
      && (r.Pass? <==> w.replies != [] && w.replies[0].Answer? && w.replies[0].body.JObject?)
      && (r.Pass? ==> sid' == SidOf(w.replies[0].body).value)
      && (r.Fail? ==> sid'.None?)
  {
  }

  /** `open` is idempotent: once it has opened the session, opening again does nothing. */
  lemma OpenIdempotent(w: Wire, sid: Option<Value>, t: AuthToken)
    requires OpenStep(w, sid, t).1.Some?
    ensures var (w', sid', _) := OpenStep(w, sid, t);
      OpenStep(w', sid', t) == (w', sid', Pass)
  {
  }

  /** `close` on a closed session makes no call; on an open one it makes exactly one logoff
      call carrying the current `sid`, then clears `sid` unless the call raised. */
  lemma CloseCalls(w: Wire, sid: Option<Value>, t: AuthToken)
    ensures var (w', sid', r) := CloseStep(w, sid, t);
      && (sid.None? ==> w' == w && sid'.None? && r.Pass?)
      && (sid.Some? ==>
            && w'.sent == w.sent + [WithEnvelope(LogoffCommand(sid.value), t.database)]
            && w'.sent[|w.sent|]["sid"] == sid.value
            && (r.Pass? <==> w.replies != [] && w.replies[0].Answer?)
            && (r.Pass? ==> sid'.None?)
            && (r.Fail? ==> sid' == sid))
  {
  }

  /** `submit` on a closed session raises and makes no call. */
  lemma SubmitWhenClosed(w: Wire, t: AuthToken, data: Object, submitter: string)
    ensures SubmitStep(w, None, t, data, submitter) == (w, Failure(SessionClosed))
  {
  }

  /** The upload command sent by `submit`, once enveloped. */
  lemma UploadCommandFields(sid: Value, data: Object, submitter: string, database: Database)
    ensures var command := WithEnvelope(UploadCommand(sid, data, submitter), database);
      && command["cmd"] == JString("data/hcov-19/upload")
      && command["sid"] == sid
      && command["data"] == JObject(data)
      && command["submitter"] == JString(submitter)
      && command["ctx"] == JString(database.Value())
  {
  }

  /** `submit` on an open session makes exactly one upload call carrying the `sid`, the
      submission dumped by alias and its submitter, and returns the reply without `api`. */
  lemma SubmitWhenOpen(w: Wire, sid: Value, t: AuthToken, data: Object, submitter: string)
    ensures var (w', r) := SubmitStep(w, Some(sid), t, data, submitter);
      && w'.sent == w.sent + [WithEnvelope(UploadCommand(sid, data, submitter), t.database)]
      && (r.Success? <==> w.replies != [] && w.replies[0].Answer? && w.replies[0].body.JObject?)
      && (r.Success? ==> "api" !in r.value && r.value == w.replies[0].body.fields - {"api"})
  {
  }

  /** `open` against a server that answers with an object. */
  lemma OpenAnswered(w: Wire, t: AuthToken, answer: Object, rest: seq<Reply>)
    requires w.replies == [Answer(JObject(answer))] + rest
    ensures OpenStep(w, None, t) ==
      (Wire(w.sent + [WithEnvelope(LogonCommand(t), t.database)], rest), SidOf(JObject(answer)).value, Pass)
  {
    assert w.replies[1..] == rest;
  }

  /** `submit` against a server that answers with an object. */
  lemma SubmitAnswered(w: Wire, sid: Value, t: AuthToken, data: Object, submitter: string, answer: Object, rest: seq<Reply>)
    requires w.replies == [Answer(JObject(answer))] + rest
    ensures SubmitStep(w, Some(sid), t, data, submitter) ==
      (Wire(w.sent + [WithEnvelope(UploadCommand(sid, data, submitter), t.database)], rest),
       Success(answer - {"api"}))
  {
    assert w.replies[1..] == rest;
  }

  /** `close` against a server that answers. */
  lemma CloseAnswered(w: Wire, sid: Value, t: AuthToken, answer: Value, rest: seq<Reply>)
    requires w.replies == [Answer(answer)] + rest
    ensures CloseStep(w, Some(sid), t) ==
      (Wire(w.sent + [WithEnvelope(LogoffCommand(sid), t.database)], rest), None, Pass)
  {
    assert w.replies[1..] == rest;
  }

  /** The three steps of a session against a server that answers a logon with a `sid`, then
      an upload with an object, then a logoff. */
  lemma LifecycleSteps(w0: Wire, t: AuthToken, data: Object, submitter: string,
                       logonReply: Object, answer: Object, logoffReply: Value)
    requires "sid" in logonReply && logonReply["sid"] != JNull
    requires |w0.replies| >= 3 && w0.replies[0] == Answer(JObject(logonReply))
    requires w0.replies[1] == Answer(JObject(answer)) && w0.replies[2] == Answer(logoffReply)
    ensures var sid := logonReply["sid"];
      var w1 := Wire(w0.sent + [WithEnvelope(LogonCommand(t), t.database)], w0.replies[1..]);
      var w2 := Wire(w1.sent + [WithEnvelope(UploadCommand(sid, data, submitter), t.database)], w0.replies[2..]);
      && OpenStep(w0, None, t) == (w1, Some(sid), Pass)
      && SubmitStep(w1, Some(sid), t, data, submitter) == (w2, Success(answer - {"api"}))
      && CloseStep(w2, Some(sid), t) ==
           (Wire(w2.sent + [WithEnvelope(LogoffCommand(sid), t.database)], w0.replies[3..]), None, Pass)
  {
    var sid := logonReply["sid"];
    var w1 := Wire(w0.sent + [WithEnvelope(LogonCommand(t), t.database)], w0.replies[1..]);
    var w2 := Wire(w1.sent + [WithEnvelope(UploadCommand(sid, data, submitter), t.database)], w0.replies[2..]);
    assert w0.replies == [w0.replies[0]] + w0.replies[1..];
    OpenAnswered(w0, t, logonReply, w0.replies[1..]);
    assert w1.replies == [w0.replies[1]] + w0.replies[2..];
    SubmitAnswered(w1, sid, t, data, submitter, answer, w0.replies[2..]);
    assert w2.replies == [w0.replies[2]] + w0.replies[3..];
    CloseAnswered(w2, sid, t, logoffReply, w0.replies[3..]);
  }

  /** A whole `async with GisaidSession(...)` block with one submission, against a server that
      opens a session, accepts the upload and closes (whatever it would answer next is left
      unread): logon, upload and logoff are sent in that order, the upload carries the new
      `sid`, and the session ends closed. */
  lemma SessionLifecycle(w0: Wire, t: AuthToken, data: Object, submitter: string,
                         logonReply: Object, answer: Object, logoffReply: Value)
    requires "sid" in logonReply && logonReply["sid"] != JNull
    requires |w0.replies| >= 3 && w0.replies[0] == Answer(JObject(logonReply))
    requires w0.replies[1] == Answer(JObject(answer)) && w0.replies[2] == Answer(logoffReply)
    ensures
      var sid := logonReply["sid"];
      var (w1, sid1, r1) := OpenStep(w0, None, t);
      var (w2, r2) := SubmitStep(w1, sid1, t, data, submitter);
      var (w3, sid3, r3) := CloseStep(w2, sid1, t);
      && r1.Pass? && sid1 == Some(sid)
      && r2 == Success(answer - {"api"})
      && r3.Pass? && sid3.None?
      && w3.replies == w0.replies[3..]
      && w3.sent == w0.sent + [
           WithEnvelope(LogonCommand(t), t.database),
           WithEnvelope(UploadCommand(sid, data, submitter), t.database),
           WithEnvelope(LogoffCommand(sid), t.database)]
  {
    LifecycleSteps(w0, t, data, submitter, logonReply, answer, logoffReply);
    var sid := logonReply["sid"];
    var logon := WithEnvelope(LogonCommand(t), t.database);
    var upload := WithEnvelope(UploadCommand(sid, data, submitter), t.database);
    var logoff := WithEnvelope(LogoffCommand(sid), t.database);
    assert w0.sent + [logon] + [upload] + [logoff] == w0.sent + [logon, upload, logoff];
  }

  /** The client, holding its side of the wire: the ghost trace of request bodies and the
      replies the server will give. */
  class GisaidClient {
    ghost var sent: seq<Object>
    var replies: seq<Reply>

    ghost function WireState(): Wire
      reads this
    {
      Wire(sent, replies)
    }

    constructor (replies: seq<Reply>)
      ensures WireState() == Wire([], replies)
    {
      sent := [];
      this.replies := replies;
    }

    /** `call_api`. */
    method CallApi(data: Object, database: Database) returns (result: Result<Value, Error>)
      modifies this
      ensures (WireState(), result) == Call(old(WireState()), data, database)
    {
      sent := sent + [WithEnvelope(data, database)];
      if replies == [] {
        return Failure(RemoteCallFailed);
      }
      var reply := replies[0];
      replies := replies[1..];
      match reply
      case Answer(body) => return Success(body);
      case TransportError => return Failure(RemoteCallFailed);
    }

    /** `request_auth_token`, with the salt given. */
    method RequestAuthToken(database: Database, clientId: string, username: string, password: string,
                            salt: string, sha512Hex: string -> string)
      returns (token: Result<AuthToken, Error>)
      modifies this
      ensures (WireState(), token) ==
        AuthTokenStep(old(WireState()), database, clientId, username, password, salt, sha512Hex)
    {
      var hashed := HashPassword(password, salt, sha512Hex);
      var commandData := TokenCommand(clientId, username, hashed);
      var response := CallApi(commandData, database);
      match response
      case Failure(e) => return Failure(e);
      case Success(v) => return TokenFrom(v, database, clientId);
    }
  }

  /** `GisaidSession`: `sid` is `None` while closed. */
  class GisaidSession {
    const authToken: AuthToken
    const client: GisaidClient
    var sid: Option<Value>

    constructor (authToken: AuthToken, client: GisaidClient)
      ensures this.authToken == authToken && this.client == client && sid.None?
    {
      this.authToken := authToken;
      this.client := client;
      sid := None;
    }

    method Open() returns (outcome: Outcome<Error>)
      modifies this, client
      ensures (client.WireState(), sid, outcome) == OpenStep(old(client.WireState()), old(sid), authToken)
    {
      if sid.Some? {
        return Pass;
      }
      var result := client.CallApi(LogonCommand(authToken), authToken.database);
      match result
      case Failure(e) =>
        return Fail(e);
      case Success(v) =>
        var got := SidOf(v);
        if got.Failure? {
          return Fail(got.error);
        }
        sid := got.value;
        return Pass;
    }

    method Close() returns (outcome: Outcome<Error>)
      modifies this, client
      ensures (client.WireState(), sid, outcome) == CloseStep(old(client.WireState()), old(sid), authToken)
    {
      if sid.None? {
        return Pass;
      }
      var result := client.CallApi(LogoffCommand(sid.value), authToken.database);
      if result.Failure? {
        return Fail(result.error);
      }
      sid := None;
      return Pass;
    }

    method Submit(submission: Submission) returns (result: Result<Object, Error>)
      modifies client
      ensures (client.WireState(), result) ==
        SubmitStep(old(client.WireState()), sid, authToken, Dump(submission, true), Submitter(submission.meta))
    {
      if sid.None? {
        return Failure(SessionClosed);
      }
      var data := Dump(submission, true);
      var response := client.CallApi(UploadCommand(sid.value, data, Submitter(submission.meta)), authToken.database);
      match response
      case Failure(e) =>
        return Failure(e);
      case Success(v) =>
        if !v.JObject? {
          return Failure(NotAnObject);
        }
        return Success(v.fields - {"api"});
    }

    /** `__aenter__`. */
    method Enter() returns (outcome: Outcome<Error>)
      modifies this, client
      ensures (client.WireState(), sid, outcome) == OpenStep(old(client.WireState()), old(sid), authToken)
    {
      outcome := Open();
    }

    /** `__aexit__`. */
    method Exit() returns (outcome: Outcome<Error>)
      modifies this, client
      ensures (client.WireState(), sid, outcome) == CloseStep(old(client.WireState()), old(sid), authToken)
    {
      outcome := Close();
    }
  }
}
