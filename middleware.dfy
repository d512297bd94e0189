/** middleware/middleware.go: the lifecycle of the installed client. Initialize
    loads the configuration when there is none, installs a client and, when
    volumes are verified, opens a session (generateSocket) and probes it;
    SafeInitialize wraps it between teardowns; DeInitialize closes and clears
    the client. Dialing, the handshake, the login and the probe are exchanges
    whose outcomes are the `Network` parameter. */
module Middleware {
  import opened Json
  import opened State
  import opened Socket
  import opened Configs
  import Calls
  import Connection

  const MiddlewareNotInitialized := "middleware could not be initialized"

  /** How the network answers during one Initialize: the dial error, if any, and the
      handshake, login and ping exchanges. */
  datatype Network = Network(dial: Option<string>, handshake: Exchange, login: Exchange, ping: Exchange)

  /** Whether generateSocket sends auth.login. */
  predicate SendsLogin(username: string, password: string)
  {
    username != "" && password != ""
  }

  predicate HasSession(resp: JsonMap)
  {
    "session" in resp && resp["session"].JString?
  }

  /** The answers generateSocket can read without panicking: a handshake response with a
      string "session", and a boolean login result when it logs in. */
  predicate SessionAnswers(username: string, password: string, net: Network)
  {
    net.dial.None? && Answer(true, net.handshake).Ok? ==>
      HasSession(Answer(true, net.handshake).value)
      && (SendsLogin(username, password) ==> Connection.LoginAnswer(Answer(true, net.login)))
  }

  /** The session id the daemon issued in the handshake. */
  function SessionId(net: Network): string
    requires Answer(true, net.handshake).Ok? && HasSession(Answer(true, net.handshake).value)
  {
    Answer(true, net.handshake).value["session"].s
  }

  /** generateSocket's error: the dial error, then the handshake error, then the login error. */
  function SocketError(username: string, password: string, net: Network): (err: Option<string>)
    requires SessionAnswers(username, password, net)
    ensures net.dial.Some? ==> err == net.dial
    ensures net.dial.None? && Answer(true, net.handshake).Err? ==>
      err == Some(Answer(true, net.handshake).error)
    ensures net.dial.None? && Answer(true, net.handshake).Ok? && SendsLogin(username, password)
            && Connection.LoginVerdict(Answer(true, net.login)).Err? ==>
      err == Some(Connection.LoginVerdict(Answer(true, net.login)).error)
    ensures !SendsLogin(username, password) ==>
      (err.None? <==> net.dial.None? && Answer(true, net.handshake).Ok?)
  {
    if net.dial.Some? then net.dial
    else if Answer(true, net.handshake).Err? then Some(Answer(true, net.handshake).error)
    else if SendsLogin(username, password) && Connection.LoginVerdict(Answer(true, net.login)).Err? then
      Some(Connection.LoginVerdict(Answer(true, net.login)).error)
    else None
  }

  /** A session is opened with credentials only when the daemon answers the login with
      `true`; with an empty username or password no login is needed. */
  lemma SocketErrorLogin(username: string, password: string, net: Network)
    requires SessionAnswers(username, password, net)
    requires net.dial.None? && Answer(true, net.handshake).Ok?
    ensures SendsLogin(username, password) ==>
      (SocketError(username, password, net).None? <==> Answer(true, net.login).Ok? && Answer(true, net.login).value["result"] == JBool(true))
    ensures !SendsLogin(username, password) ==> SocketError(username, password, net).None?
  {
  }

  /** The stages generateSocket runs: the handshake, then the login when it sends one. */
  function SessionStages(username: string, password: string, net: Network): seq<Stage>
    requires SessionAnswers(username, password, net)
  {
    if net.dial.Some? then []
    else if Answer(true, net.handshake).Err? || !SendsLogin(username, password) then
      Ran(true, Connection.HandshakeRequest(), net.handshake)
    else
      Ran(true, Connection.HandshakeRequest(), net.handshake)
      + Ran(true, Connection.LoginRequest(SessionId(net), username, password), net.login)
  }

  /** Without both credentials no login request is ever written. */
  lemma NoLoginWithoutCredentials(username: string, password: string, net: Network, id: string)
    requires SessionAnswers(username, password, net)
    requires !SendsLogin(username, password)
    ensures Write(Connection.LoginRequest(id, username, password)) !in SessionStages(username, password, net)
  {
    var stages := SessionStages(username, password, net);
    var login := Connection.LoginRequest(id, username, password);
    if net.dial.None? {
      assert stages <= Pipeline(Connection.HandshakeRequest());
      assert login != Connection.HandshakeRequest() by {
        assert "id" in login.Keys;
        assert "id" !in Connection.HandshakeRequest().Keys;
      }
    }
  }

  /** The verdict of Initialize once a configuration is in effect. */
  function Outcome(settings: Settings, username: string, password: string, net: Network): Option<string>
    requires SessionAnswers(username, password, net)
  {
    if !settings.verifyVolumes then None
    else if SocketError(username, password, net).Some? then SocketError(username, password, net)
    else Calls.PingVerdict(Answer(true, net.ping), Connection.InvalidCredentials)
  }

  /** The verdict of Initialize: a configuration error when it had to load one and that
      failed, otherwise the outcome under the configuration in effect. */
  function InitializeError(hadConfig: bool, load: Result<JsonMap>, settings: Settings,
                           username: string, password: string, net: Network): Option<string>
    requires SessionAnswers(username, password, net)
  {
    if !hadConfig && LoadError(load).Some? then LoadError(load)
    else Outcome(settings, username, password, net)
  }

  /** IsClientInitialized. */
  predicate IsClientInitialized(pkg: Package)
    reads pkg, pkg.clientConfig
    ensures IsClientInitialized(pkg) <==> pkg.Installed() != null
  {
    pkg.clientConfig != null && pkg.clientConfig.client != null
  }

  /** CanVerifyVolumes (middleware.go revision): the flag, with an error when no client is installed. */
  method CanVerifyVolumes(pkg: Package) returns (verify: bool, err: Option<string>)
    requires pkg.clientConfig != null
    ensures verify == pkg.clientConfig.verifyVolumes
    ensures err.None? <==> IsClientInitialized(pkg)
    ensures err.Some? ==> err.value == MiddlewareNotInitialized
  {
    if !IsClientInitialized(pkg) {
      return pkg.clientConfig.verifyVolumes, Some(MiddlewareNotInitialized);
    }
    return pkg.clientConfig.verifyVolumes, None;
  }

  /** testConnection (middleware.go revision): identical in behaviour to connection.go's. */
  method TestConnection(pkg: Package, ex: Exchange) returns (err: Option<string>)
    requires pkg.clientConfig != null
    ensures err == Calls.PingVerdict(Calls.CallAnswer(pkg.Installed(), ex), Connection.InvalidCredentials)
    ensures pkg.Installed() == null ==> err == Some(Calls.ClientNotInitialized)
  {
    var call, _ := Calls.Call(pkg, "core.ping", [], ex);
    if call.Err? {
      return Some(call.error);
    }
    var result := call.value;
    var pong, ok := "", false;
    if "result" in result && result["result"].JString? {
      pong, ok := result["result"].s, true;
    }
    if !ok && pong != "pong" {
      return Some(Connection.InvalidCredentials);
    }
    return None;
  }

  /** Client.Close: closes the connection when there is one. */
  method Close(m: Client)
    modifies m.conn
    ensures m.conn != null ==> m.conn.closed
  {
    if m.conn != null {
      m.conn.closed := true;
    }
  }

  /** generateSocket: dial, handshake, log in when both credentials are given, and only
      then install a client bound to the new connection and session. */
  method GenerateSocket(pkg: Package, socketUrl: string, username: string, password: string, net: Network)
    returns (err: Option<string>, stages: seq<Stage>)
    requires pkg.clientConfig != null
    requires SessionAnswers(username, password, net)
    modifies pkg.clientConfig
    ensures pkg.clientConfig.Current() == old(pkg.clientConfig.Current())
    ensures err == SocketError(username, password, net)
    ensures stages == SessionStages(username, password, net)
    ensures err.Some? ==> pkg.clientConfig.client == old(pkg.clientConfig.client)
    ensures err.None? ==>
      var c := pkg.clientConfig.client;
      c != null && fresh(c) && c.conn != null && fresh(c.conn) && !c.conn.closed
      && c.id == SessionId(net) && c.msg == "method"
      && c.username == username && c.password == password
  {
    if net.dial.Some? {
      return net.dial, [];
    }
    var conn := new Conn();
    var connectionResp;
    connectionResp, stages := Connection.GenerateSession(conn, net.handshake);
    if connectionResp.Err? {
      return Some(connectionResp.error), stages;
    }
    if SendsLogin(username, password) {
      var loginResp, loginStages := Connection.LoginSession(
        conn, connectionResp.value["session"].s, username, password, net.login);
      stages := stages + loginStages;
      if loginResp.Err? {
        return Some(loginResp.error), stages;
      }
    }
    var client := new Client(connectionResp.value["session"].s, "method", conn, username, password);
    pkg.clientConfig.client := client;
    return None, stages;
  }

  /** DeInitialize: closes and clears an installed client; a no-op otherwise, so a second
      call changes nothing. The settings stay. */
  method DeInitialize(pkg: Package)
    modifies pkg.clientConfig, if pkg.Installed() != null then {pkg.Installed().conn} else {}
    ensures pkg.Installed() == null
    ensures pkg.clientConfig != null ==> pkg.clientConfig.Current() == old(pkg.clientConfig.Current())
    ensures old(pkg.Installed()) != null && old(pkg.Installed().conn) != null ==> old(pkg.Installed().conn).closed
    ensures old(pkg.Installed()) == null && pkg.clientConfig != null ==> unchanged(pkg.clientConfig)
  {
    if pkg.clientConfig != null && pkg.clientConfig.client != null {
      Close(pkg.clientConfig.client);
      pkg.clientConfig.client := null;
    }
  }

  /** Initialize: loads the configuration if there is none, installs a client holding the
      credentials and, when volumes are verified, opens a session and probes it. A failure
      after the client is installed leaves that client in place. */
  method Initialize(pkg: Package, username: string, password: string, load: Result<JsonMap>, net: Network)
    returns (err: Option<string>)
    requires ConfigAnswer(load) && SessionAnswers(username, password, net)
    modifies pkg, pkg.clientConfig
    ensures pkg.clientConfig != null
    ensures old(pkg.clientConfig) != null ==>
      pkg.clientConfig == old(pkg.clientConfig) && pkg.clientConfig.Current() == old(pkg.clientConfig.Current())
    ensures old(pkg.clientConfig) == null ==> fresh(pkg.clientConfig)
    ensures old(pkg.clientConfig) == null && LoadError(load).None? ==>
      pkg.clientConfig.Current() == Interpreted(load.value)
    ensures err == InitializeError(old(pkg.clientConfig) != null, load, pkg.clientConfig.Current(),
                                   username, password, net)
    ensures old(pkg.clientConfig) == null && LoadError(load).Some? ==>
      pkg.Installed() == null && pkg.clientConfig.Current() == PartialSettings(load)
    ensures old(pkg.clientConfig) != null || LoadError(load).None? ==>
      pkg.Installed() != null && fresh(pkg.Installed())
      && pkg.Installed().username == username && pkg.Installed().password == password
    ensures pkg.Installed() != null && pkg.Installed().conn != null ==> fresh(pkg.Installed().conn)
    ensures pkg.Installed() != null && !pkg.clientConfig.verifyVolumes ==>
      err == None && pkg.Installed().conn == null && pkg.Installed().id == "" && pkg.Installed().msg == ""
    ensures pkg.clientConfig.verifyVolumes && (old(pkg.clientConfig) != null || LoadError(load).None?)
            && SocketError(username, password, net).None? ==>
      pkg.Installed().conn != null && !pkg.Installed().conn.closed
      && pkg.Installed().id == SessionId(net) && pkg.Installed().msg == "method"
    ensures pkg.clientConfig.verifyVolumes && (old(pkg.clientConfig) != null || LoadError(load).None?)
            && SocketError(username, password, net).Some? ==>
      pkg.Installed().conn == null && pkg.Installed().id == ""
  {
    if pkg.clientConfig == null {
      pkg.clientConfig := new Config();
      err := InitConfig(pkg, load);
      if err.Some? {
        return;
      }
    }
    pkg.clientConfig.client := new Client("", "", null, username, password);
    if pkg.clientConfig.verifyVolumes {
      var connErr, _ := GenerateSocket(pkg, pkg.clientConfig.socketUrl, username, password, net);
      if connErr.Some? {
        return connErr;
      }
      var connCheckErr := TestConnection(pkg, net.ping);
      if connCheckErr.Some? {
        return connCheckErr;
      }
    }
    return None;
  }

  /** SafeInitialize: tears down, initializes, and tears down again on failure, so that it
      ends with a client installed exactly when it reports no error. */
  method SafeInitialize(pkg: Package, username: string, password: string, load: Result<JsonMap>, net: Network)
    returns (err: Option<string>)
    requires ConfigAnswer(load) && SessionAnswers(username, password, net)
    modifies pkg, pkg.clientConfig, if pkg.Installed() != null then {pkg.Installed().conn} else {}
    ensures pkg.clientConfig != null
    ensures IsClientInitialized(pkg) <==> err.None?
    ensures err == InitializeError(old(pkg.clientConfig) != null, load, pkg.clientConfig.Current(),
                                   username, password, net)
    ensures old(pkg.Installed()) != null && old(pkg.Installed().conn) != null ==> old(pkg.Installed().conn).closed
    ensures old(pkg.clientConfig) != null ==>
      pkg.clientConfig == old(pkg.clientConfig) && pkg.clientConfig.Current() == old(pkg.clientConfig.Current())
    ensures old(pkg.clientConfig) == null && LoadError(load).None? ==>
      pkg.clientConfig.Current() == Interpreted(load.value)
    ensures old(pkg.clientConfig) == null && LoadError(load).Some? ==>
      pkg.clientConfig.Current() == PartialSettings(load)
    ensures !pkg.clientConfig.verifyVolumes && (old(pkg.clientConfig) != null || LoadError(load).None?) ==>
      err == None
    ensures err.None? ==>
      pkg.Installed().username == username && pkg.Installed().password == password
      && (pkg.clientConfig.verifyVolumes ==>
            pkg.Installed().conn != null && !pkg.Installed().conn.closed
            && pkg.Installed().id == SessionId(net) && pkg.Installed().msg == "method")
      && (!pkg.clientConfig.verifyVolumes ==> pkg.Installed().conn == null)
  {
    DeInitialize(pkg);
    err := Initialize(pkg, username, password, load, net);
    if err.Some? {
      DeInitialize(pkg);
    }
  }

  /** A failed configuration load leaves a zero-valued config record installed, so the next
      Initialize does not load again: it runs with volume verification off, installs a client
      without a connection and reports success. */
  method RetryAfterConfigFailure(username: string, password: string,
                                 firstLoad: Result<JsonMap>, secondLoad: Result<JsonMap>, net: Network)
    returns (pkg: Package, firstErr: Option<string>, secondErr: Option<string>)
    requires firstLoad.Err? && ConfigAnswer(secondLoad) && SessionAnswers(username, password, net)
    ensures firstErr == Some(firstLoad.error)
    ensures secondErr == None && IsClientInitialized(pkg)
    ensures pkg.clientConfig.Current() == ZeroSettings
    ensures pkg.Installed().conn == null
  {
    pkg := new Package();
    firstErr := Initialize(pkg, username, password, firstLoad, net);
    secondErr := Initialize(pkg, username, password, secondLoad, net);
  }
}
