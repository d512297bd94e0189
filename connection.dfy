/** middleware/connection.go: the handshake and login requests, the check on the
    login answer, and the connection.go revision of the liveness probe. */
module Connection {
  import opened Json
  import opened State
  import opened Socket
  import Calls

  const InvalidCredentials := "invalid credentials"

  /** The "connect" handshake request. */
  function HandshakeRequest(): (request: JsonMap)
    ensures request.Keys == {"msg", "version", "support"}
    ensures request["msg"] == JString("connect") && request["version"] == JString("1")
    ensures request["support"] == JList([JString("1")])
  {
    map["msg" := JString("connect"), "version" := JString("1"), "support" := JList([JString("1")])]
  }

  /** The "auth.login" request carrying the session id and the credentials. */
  function LoginRequest(id: string, username: string, password: string): (request: JsonMap)
    ensures request.Keys == {"id", "msg", "method", "params"}
    ensures request["params"] == JList([JString(username), JString(password)])
  {
    map["id" := JString(id), "msg" := JString("method"), "method" := JString("auth.login"),
        "params" := JList([JString(username), JString(password)])]
  }

  /** The login request is an ordinary method call of "auth.login" on session `id`. */
  lemma LoginIsMethodCall(id: string, username: string, password: string)
    ensures LoginRequest(id, username, password)
            == Calls.CallRequest(id, "method", "auth.login", [JString(username), JString(password)])
  {
  }

  /** GenerateSession: sends the handshake and returns the transport's answer unchanged. */
  method GenerateSession(conn: Conn?, ex: Exchange) returns (r: Result<JsonMap>, stages: seq<Stage>)
    ensures r == Answer(conn != null, ex)
    ensures stages == Ran(conn != null, HandshakeRequest(), ex)
  {
    r, stages := HandleSocketCommunication(conn, HandshakeRequest(), ex);
  }

  /** A login answer LoginSession can read: `connResp["result"].(bool)` panics unless
      the response holds a boolean result. */
  predicate LoginAnswer(answer: Result<JsonMap>)
  {
    answer.Ok? ==> "result" in answer.value && answer.value["result"].JBool?
  }

  /** LoginSession's decision on the login answer. */
  function LoginVerdict(answer: Result<JsonMap>): (r: Result<JsonMap>)
    requires LoginAnswer(answer)
    ensures answer.Err? ==> r == answer
    ensures answer.Ok? ==> (r.Ok? <==> answer.value["result"] == JBool(true))
    ensures r.Ok? ==> r == answer
    ensures answer.Ok? && r.Err? ==> r.error == InvalidCredentials
  {
    match answer
    case Err(_) => answer
    case Ok(resp) => if !resp["result"].b then Err(InvalidCredentials) else answer
  }

  /** LoginSession: sends the login request; a transport error comes back unchanged,
      `false` is "invalid credentials" and `true` returns the whole response. */
  method LoginSession(conn: Conn?, id: string, username: string, password: string, ex: Exchange)
    returns (r: Result<JsonMap>, stages: seq<Stage>)
    requires LoginAnswer(Answer(conn != null, ex))
    ensures r == LoginVerdict(Answer(conn != null, ex))
    ensures stages == Ran(conn != null, LoginRequest(id, username, password), ex)
  {
    var connResp;
    connResp, stages := HandleSocketCommunication(conn, LoginRequest(id, username, password), ex);
    if connResp.Err? {
      return connResp, stages;
    }
    if !connResp.value["result"].b {
      return Err(InvalidCredentials), stages;
    }
    return connResp, stages;
  }

  /** testConnection (connection.go revision): call errors pass through; a non-string
      result is reported as "invalid credentials". */
  method TestConnection(pkg: Package, ex: Exchange) returns (err: Option<string>)
    requires pkg.clientConfig != null
    ensures err == Calls.PingVerdict(Calls.CallAnswer(pkg.Installed(), ex), InvalidCredentials)
  {
    var call, _ := Calls.Call(pkg, "core.ping", [], ex);
    if call.Err? {
      return Some(call.error);
    }
    var result := call.value;
    var pong, ok := "", false;
    if "result" in result && result["result"].JString? {
      pong, ok := result["result"].s, true;
    }
    if !ok && pong != "pong" {
      return Some(InvalidCredentials);
    }
    return None;
  }
}
