/** The middleware package's mutable state: the websocket connection, the
    client record, the configuration record and the package-level pointer
    `clientConfig` that holds them. Everything that reads or changes the
    package globals takes the `Package` object explicitly. */
module State {

  /** A websocket connection. The library behind it is not modelled; closing it is
      recorded so that "the old connection was closed" can be stated. */
  class Conn {
    var closed: bool

    constructor ()
      ensures !closed
    {
      closed := false;
    }
  }

  /** The Client record: session id, credentials, message kind and connection. */
  class Client {
    var id: string
    var username: string
    var password: string
    var msg: string
    var conn: Conn?

    constructor (id: string, msg: string, conn: Conn?, username: string, password: string)
      ensures this.id == id && this.msg == msg && this.conn == conn
      ensures this.username == username && this.password == password
    {
      this.id := id;
      this.msg := msg;
      this.conn := conn;
      this.username := username;
      this.password := password;
    }
  }

  /** The settings part of the config record, as one value. */
  datatype Settings = Settings(
    socketUrl: string,
    verifyVolumes: bool,
    verifyLockedPath: bool,
    verifyAttachedPath: bool,
    appsDataset: string,
    ignorePaths: seq<string>)

  /** The zero value of the settings, what `&config{}` holds. */
  const ZeroSettings := Settings("", false, false, false, "", [])

  /** The config record: the settings and the installed client. */
  class Config {
    var socketUrl: string
    var verifyVolumes: bool
    var verifyLockedPath: bool
    var verifyAttachedPath: bool
    var appsDataset: string
    var ignorePaths: seq<string>
    var client: Client?

    /** `&config{}`: every field at its zero value. */
    constructor ()
      ensures Current() == ZeroSettings && client == null
    {
      socketUrl, verifyVolumes, verifyLockedPath, verifyAttachedPath := "", false, false, false;
      appsDataset, ignorePaths, client := "", [], null;
    }

    function Current(): Settings
      reads this
    {
      Settings(socketUrl, verifyVolumes, verifyLockedPath, verifyAttachedPath, appsDataset, ignorePaths)
    }
  }

  /** The package-level variables of the middleware package. */
  class Package {
    var clientConfig: Config?

    constructor ()
      ensures clientConfig == null
    {
      clientConfig := null;
    }

    /** clientConfig.client, or null when either is nil. */
    function Installed(): Client?
      reads this, clientConfig
    {
      if clientConfig == null then null else clientConfig.client
    }
  }
}
