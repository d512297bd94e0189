/** middleware/call.go: the public Call entry point, the client's request
    construction and the call.go revision of the liveness probe. */
module Calls {
  import opened Json
  import opened State
  import opened Socket

  const ClientNotInitialized := "client is not initialized"
  const InvalidResponse := "received invalid response from middleware"

  /** The request `get` sends: the client's session id and message kind, the method and
      its parameters, and no other key. */
  function CallRequest(id: string, msg: string, methodName: string, params: seq<Json>): (request: JsonMap)
    ensures request.Keys == {"id", "msg", "method", "params"}
    ensures request["id"] == JString(id) && request["msg"] == JString(msg)
    ensures request["method"] == JString(methodName) && request["params"] == JList(params)
  {
    map["id" := JString(id), "msg" := JString(msg), "method" := JString(methodName), "params" := JList(params)]
  }

  /** What a call through client `m` returns. */
  function CallAnswer(m: Client?, ex: Exchange): Result<JsonMap>
    reads m
  {
    if m == null then Err(ClientNotInitialized) else Answer(m.conn != null, ex)
  }

  /** A client installed without a connection (volume verification off) is not refused as
      uninitialized: its calls fail at the socket. */
  lemma CallWithoutConnection(m: Client, ex: Exchange)
    requires m.conn == null && !ex.timedOut
    ensures CallAnswer(m, ex) == Err(SocketNotInitialized)
  {
  }

  /** Client.get: a nil client fails without touching the transport; otherwise the request
      goes out over the client's connection and the transport's answer comes back unchanged. */
  method Get(m: Client?, methodName: string, params: seq<Json>, ex: Exchange)
    returns (r: Result<JsonMap>, stages: seq<Stage>)
    ensures m == null ==> r == Err(ClientNotInitialized) && stages == []
    ensures m != null ==> r == Answer(m.conn != null, ex)
    ensures m != null ==> stages == Ran(m.conn != null, CallRequest(m.id, m.msg, methodName, params), ex)
    ensures r == CallAnswer(m, ex)
  {
    if m == null {
      return Err(ClientNotInitialized), [];
    }
    var data := CallRequest(m.id, m.msg, methodName, params);
    r, stages := HandleSocketCommunication(m.conn, data, ex);
  }

  /** Call: forwards to the installed client. */
  method Call(pkg: Package, methodName: string, params: seq<Json>, ex: Exchange)
    returns (r: Result<JsonMap>, stages: seq<Stage>)
    requires pkg.clientConfig != null
    ensures r == CallAnswer(pkg.Installed(), ex)
    ensures pkg.Installed() == null ==> r == Err(ClientNotInitialized) && stages == []
    ensures pkg.Installed() != null ==>
      stages == Ran(pkg.Installed().conn != null,
                    CallRequest(pkg.Installed().id, pkg.Installed().msg, methodName, params), ex)
  {
    var m := pkg.clientConfig.client;
    r, stages := Get(m, methodName, params, ex);
  }

  /** The check every revision of testConnection makes on the "core.ping" answer:
      `pong, ok := call["result"].(string); if !ok && pong != "pong"`. When the assertion
      fails pong is "", so the test reduces to `!ok`: any string passes. */
  function PingVerdict(answer: Result<JsonMap>, invalid: string): (r: Option<string>)
    ensures answer.Err? ==> r == Some(answer.error)
    ensures answer.Ok? ==> (r.None? <==> "result" in answer.value && answer.value["result"].JString?)
    ensures answer.Ok? && r.Some? ==> r.value == invalid
  {
    match answer
    case Err(e) => Some(e)
    case Ok(call) =>
      var (pong, ok) :=
        if "result" in call && call["result"].JString? then (call["result"].s, true) else ("", false);
      if !ok && pong != "pong" then Some(invalid) else None
  }

  /** The probe does not insist on "pong": any string result is accepted. */
  lemma PingAcceptsAnyString(other: string, invalid: string)
    ensures PingVerdict(Ok(map["result" := JString(other)]), invalid) == None
    ensures PingVerdict(Ok(map["result" := JBool(true)]), invalid) == Some(invalid)
  {
  }

  /** testConnection (call.go revision). */
  method TestConnection(pkg: Package, ex: Exchange) returns (err: Option<string>)
    requires pkg.clientConfig != null
    ensures err == PingVerdict(CallAnswer(pkg.Installed(), ex), InvalidResponse)
  {
    var call, _ := Call(pkg, "core.ping", [], ex);
    if call.Err? {
      return Some(call.error);
    }
    var result := call.value;
    var pong, ok := "", false;
    if "result" in result && result["result"].JString? {
      pong, ok := result["result"].s, true;
    }
    if !ok && pong != "pong" {
      return Some(InvalidResponse);
    }
    return None;
  }
}
