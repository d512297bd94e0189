/** One request/response exchange over the websocket (socketCommunication and
    handleSocketCommunication of middleware/connection.go). The library calls
    are not modelled: an `Exchange` says how each stage would come out if it
    ran, and whether the 10-second deadline fires before the worker answers. */
module Socket {
  import opened Json
  import opened State

  const SocketNotInitialized := "socket is not initialized"
  const RequestTimeOut := "request time out error"

  /** The outcome of each stage of one exchange, should that stage run. */
  datatype Exchange = Exchange(
    timedOut: bool,
    marshalError: Option<string>,
    writeError: Option<string>,
    readError: Option<string>,
    decoded: Result<JsonMap>)

  /** The stages of socketCommunication; Write carries the request it sends. */
  datatype Stage = Marshal | Write(request: JsonMap) | Read | Unmarshal

  /** The four stages, in the order they run. */
  function Pipeline(data: JsonMap): seq<Stage>
  {
    [Marshal, Write(data), Read, Unmarshal]
  }

  /** The index of the first stage that fails, or 4 when all succeed. */
  function FirstFailure(ex: Exchange): (k: nat)
    ensures k <= 4
  {
    if ex.marshalError.Some? then 0
    else if ex.writeError.Some? then 1
    else if ex.readError.Some? then 2
    else if ex.decoded.Err? then 3
    else 4
  }

  /** The error stage k reports. */
  function StageError(ex: Exchange, k: nat): string
    requires k < 4 && FirstFailure(ex) == k
  {
    match k
    case 0 => ex.marshalError.value
    case 1 => ex.writeError.value
    case 2 => ex.readError.value
    case _ => ex.decoded.error
  }

  /** The stages socketCommunication runs: none without a connection, otherwise every
      stage up to and including the first failing one. */
  function Ran(hasConn: bool, data: JsonMap, ex: Exchange): (stages: seq<Stage>)
    ensures stages <= Pipeline(data)
    ensures !hasConn ==> stages == []
    ensures hasConn ==> |stages| == if FirstFailure(ex) < 4 then FirstFailure(ex) + 1 else 4
    ensures Write(data) in stages <==> hasConn && ex.marshalError.None?
  {
    if !hasConn then []
    else
      match FirstFailure(ex)
      case 0 => [Marshal]
      case 1 => [Marshal, Write(data)]
      case 2 => [Marshal, Write(data), Read]
      case _ => Pipeline(data)
  }

  /** What socketCommunication delivers: the first failing stage's error, or the decoded
      response when every stage succeeds. */
  function Delivered(hasConn: bool, ex: Exchange): (r: Result<JsonMap>)
    ensures !hasConn ==> r == Err(SocketNotInitialized)
    ensures hasConn ==> (r.Ok? <==> FirstFailure(ex) == 4)
    ensures hasConn && FirstFailure(ex) < 4 ==> r == Err(StageError(ex, FirstFailure(ex)))
    ensures r.Ok? ==> r == ex.decoded
  {
    if !hasConn then Err(SocketNotInitialized)
    else if FirstFailure(ex) < 4 then Err(StageError(ex, FirstFailure(ex)))
    else ex.decoded
  }

  /** What handleSocketCommunication returns: a timeout when the deadline wins the race,
      otherwise what the worker delivered. */
  function Answer(hasConn: bool, ex: Exchange): (r: Result<JsonMap>)
    ensures ex.timedOut ==> r == Err(RequestTimeOut)
    ensures !ex.timedOut ==> r == Delivered(hasConn, ex)
  {
    if ex.timedOut then Err(RequestTimeOut) else Delivered(hasConn, ex)
  }

  /** A response comes back only when there is a connection, no deadline fired and all
      four stages succeeded; then it is the decoded frame. */
  lemma AnswerOk(hasConn: bool, ex: Exchange)
    ensures Answer(hasConn, ex).Ok? <==>
      hasConn && !ex.timedOut && ex.marshalError.None? && ex.writeError.None?
      && ex.readError.None? && ex.decoded.Ok?
    ensures Answer(hasConn, ex).Ok? ==> Answer(hasConn, ex) == ex.decoded
  {
  }

  /** socketCommunication: marshal, write, read and unmarshal, returning at the first failure.
      `stages` lists the stages that ran. */
  method SocketCommunication(conn: Conn?, data: JsonMap, ex: Exchange)
    returns (r: Result<JsonMap>, stages: seq<Stage>)
    ensures r == Delivered(conn != null, ex)
    ensures stages == Ran(conn != null, data, ex)
    ensures conn == null ==> stages == []
  {
    if conn == null {
      return Err(SocketNotInitialized), [];
    }
    stages := [Marshal];
    if ex.marshalError.Some? {
      return Err(ex.marshalError.value), stages;
    }
    stages := stages + [Write(data)];
    if ex.writeError.Some? {
      return Err(ex.writeError.value), stages;
    }
    stages := stages + [Read];
    if ex.readError.Some? {
      return Err(ex.readError.value), stages;
    }
    stages := stages + [Unmarshal];
    if ex.decoded.Err? {
      return Err(ex.decoded.error), stages;
    }
    return Ok(ex.decoded.value), stages;
  }

  /** handleSocketCommunication: runs the worker and returns whichever of deadline, error
      and response comes first. The worker's stages run either way. */
  method HandleSocketCommunication(conn: Conn?, data: JsonMap, ex: Exchange)
    returns (r: Result<JsonMap>, stages: seq<Stage>)
    ensures r == Answer(conn != null, ex)
    ensures stages == Ran(conn != null, data, ex)
  {
    var delivered;
    delivered, stages := SocketCommunication(conn, data, ex);
    if ex.timedOut {
      return Err(RequestTimeOut), stages;
    }
    return delivered, stages;
  }
}
