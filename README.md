# Middleware client and mount-path validation, modelled in Dafny

This project models the part of the TrueNAS fork of the Docker engine that talks to the
TrueNAS middleware daemon over a websocket, and the mount-path rules that use it:

- **Mount validation** (`volume/mounts/validate.go`, module `Mounts`): splitting a path into
  segments, the ignore-path prefixes, recognising `/mnt/<dataset>/releases/<app>/volumes/ix_volumes`
  paths, the segment rules of `ixMountValidation`, and the locked-dataset and attachment checks that
  ask the daemon through `Call`. The daemon's answer is a parameter (`Err(msg)` or `Ok(json)`).
  Go's `strings` functions used here are in module `Text`.
- **Configuration** (`middleware/configs.go`, module `Configs`): typed lookups with defaults over the
  decoded settings map and `InitConfig`, which replaces the package's config record and fills it in.
- **One exchange on the socket** (`middleware/connection.go`, module `Socket`): the four stages
  marshal, write, read and unmarshal, the first failure ending the exchange, and the deadline race.
  An `Exchange` value gives each stage's outcome and whether the deadline fires first.
- **Requests and answers** (`middleware/call.go`, module `Calls`; `middleware/connection.go`, module
  `Connection`): the handshake, login and method-call requests, the login check and the three
  revisions of the `core.ping` liveness probe.
- **Client lifecycle** (`middleware/middleware.go`, module `Middleware`): the package-level
  `clientConfig` and its `client`, installed, replaced and cleared by `Initialize`,
  `SafeInitialize`, `generateSocket` and `DeInitialize`. The package globals are the object
  `State.Package`; configuration, client and connection are classes (`State.Config`,
  `State.Client`, `State.Conn`). The network during one `Initialize` (dial, handshake, login,
  ping) is a `Network` value.

Behaviour of the code worth knowing, each proved:

- The liveness probe tests `!ok && pong != "pong"`. When the assertion fails `pong` is `""`,
  so the test is just `!ok`: any string result passes, not only `"pong"` (`Calls.PingAcceptsAnyString`).
- With `verifyVolumes` false, `Initialize` installs a client without a connection. Calls through it
  fail with "socket is not initialized", not "client is not initialized", when no deadline fires
  (`Calls.CallWithoutConnection`).
- A failed `InitConfig` leaves a record with every flag false and at most `socketUrl` set
  (`Configs.InitConfig`). The next `Initialize` does not load the file again. It runs with
  verification off and reports success (`Middleware.RetryAfterConfigFailure` shows this after a load error).
- `Initialize` can fail with its client still installed. Plain `Initialize` never clears it; `SafeInitialize` does, by calling `DeInitialize` after a failure.
- The built-in ignore prefix `/lock` has no trailing slash, so `/lockbox` is ignored too.

The settings keys are `socketUrl` and `appsDataset`. The liveness probe accepts any string. A
failed call is returned as is: there is no reconnect or retry. A login transport error is
returned unchanged.

## Model

| member | source | states |
|---|---|---|
| `Text.SplitJoin` | volume/mounts/validate.go:100 | joining the pieces of `strings.Split(path, "/")` with "/" gives the path back, and no piece holds a slash |
| `Text.SplitAtSlash` | volume/mounts/validate.go:100 | the pieces of `a/b` are the pieces of a followed by those of b |
| `Mounts.PathToList` | volume/mounts/validate.go:99-108 | the loop returns the slash-separated pieces with every empty one removed, in order; each segment is non-empty and slash-free |
| `Mounts.SegmentsAtSlash` | volume/mounts/validate.go:99-108 | the segments of `a/b` are the segments of a followed by those of b |
| `Mounts.SegmentsOfSlash` | volume/mounts/validate.go:113 | "/" has no segments |
| `Mounts.SegmentsLeadingSlash` | volume/mounts/validate.go:99-108 | a leading slash adds no segment |
| `Mounts.SegmentsTrailingSlash` | volume/mounts/validate.go:99-108 | a trailing slash adds no segment |
| `Mounts.SegmentsDoubleSlash` | volume/mounts/validate.go:99-108 | a doubled slash gives the same segments as a single one |
| `Mounts.IgnorePath` | volume/mounts/validate.go:58-72 | true iff the path is "/" or some built-in or configured prefix starts it or equals it once its trailing slashes are trimmed |
| `Mounts.IgnoredMonotone` | volume/mounts/validate.go:64-70 | adding configured paths, before or after, never un-ignores a path; one configured prefix that covers the path is enough |
| `Mounts.IgnoredWithoutTrailingSlash` | volume/mounts/validate.go:67 | "/mnt" is ignored because it equals "/mnt/" trimmed |
| `Mounts.IgnoredLockPrefix` | volume/mounts/validate.go:64-69 | "/lockbox" is ignored because "/lock" is a raw prefix of it |
| `Mounts.NotIgnoredSibling` | volume/mounts/validate.go:64-71 | "/mntx" is not ignored by the built-in list |
| `Mounts.IsIXVolumePath` | volume/mounts/validate.go:45-56 | an ix-volume path always starts with /mnt/<dataset>/releases |
| `Mounts.AppNameAfterPrefix` | volume/mounts/validate.go:48-49 | once the release prefix is replaced away, the first piece is the application name that followed it |
| `Mounts.IXVolumeRecognised` | volume/mounts/validate.go:45-56 | /mnt/<dataset>/releases/<app>/volumes/ix_volumes followed by anything is an ix-volume path for every ordinary application name |
| `Mounts.ClusterBlockListsValue` | volume/mounts/validate.go:119-121 | the blocked cluster paths split into ["cluster","ctdb_shared_vol"] and ["cluster"] |
| `Mounts.IxMountValidation` | volume/mounts/validate.go:110-129 | an ignored path is refused only with the "Invalid path … outside a pool" message, and one three or more segments deep always passes; a non-ignored path under cluster is refused only with the "is blocked" message; any other non-ignored path is refused |
| `Mounts.IgnoredMountRule` | volume/mounts/validate.go:110-117 | for an ignored path, refused iff it has one or two segments and the first is "mnt"; "/" passes |
| `Mounts.ClusterMountRule` | volume/mounts/validate.go:118-128 | otherwise allowed iff the first segment is "cluster" and the segments are neither ["cluster"] nor ["cluster","ctdb_shared_vol"]; any other first segment gives "path not allowed to be mounted" |
| `Mounts.LockedPathValidation` | volume/mounts/validate.go:34-43 | "Dataset path is locked" iff the call succeeded with the boolean true; failure, non-bool or false pass |
| `Mounts.KeptTypesAll` | volume/mounts/validate.go:79-85 | off ix-volume paths every attachment's type is reported, one per entry, in order |
| `Mounts.KeptTypesOnIXVolume` | volume/mounts/validate.go:79-85 | on an ix-volume path a type is reported iff some entry has it and it is neither "Chart Releases" nor "Kubernetes" |
| `Mounts.KeptTypesAppend` | volume/mounts/validate.go:79-85 | the kept types of a concatenation are the kept types of each part, in order |
| `Mounts.GetAttachments` | volume/mounts/validate.go:74-89 | the loop returns the kept types of the call's records; nothing when the call failed |
| `Mounts.AttachedPathValidation` | volume/mounts/validate.go:91-97 | refuses iff some attachment is reported, naming them joined by ", " |
| `Mounts.AttachedPathRule` | volume/mounts/validate.go:74-97 | a failed call never refuses; off ix-volume paths any attachment refuses |
| `Configs.ParseValue` | middleware/configs.go:35-41 | the stored value when the key is present, the default otherwise |
| `Configs.ParseBoolValue` | middleware/configs.go:43-49 | the stored value only when present and boolean, the default in every other case |
| `Configs.StringsExactly` | middleware/configs.go:53-61 | a string is kept iff it is an element of the list; a list without strings gives the empty list |
| `Configs.StringsAppend` | middleware/configs.go:55-60 | the strings of a concatenation are the strings of each part, in order |
| `Configs.ParseStringListValue` | middleware/configs.go:51-64 | on a stored list, exactly its string elements in order; the default when the key is absent or not a list |
| `Configs.LoadError` | middleware/configs.go:66-83 | the load failure first, then the missing socketUrl, then the missing appsDataset; no error iff both keys are present |
| `Configs.InterpretedDefaults` | middleware/configs.go:84-88 | a flag is false only when the file gives false; the ignore list is empty when absent; the two required values are copied |
| `Configs.InitConfig` | middleware/configs.go:66-90 | installs a fresh record; on failure only socketUrl may be set; on success the record holds the interpreted settings and no client |
| `Configs.CanVerifyVolumes` | middleware/configs.go:92-94 | the flag, never an error |
| `Configs.CanVerifyAttachPath` | middleware/configs.go:96-98 | the attached-path flag of the settings in effect |
| `Configs.CanVerifyLockedVolumes` | middleware/configs.go:100-102 | the locked-path flag of the settings in effect |
| `Configs.GetIgnorePaths` | middleware/configs.go:104-106 | the ignore-path list of the settings in effect |
| `Configs.GetRootDataset` | middleware/configs.go:108-110 | the apps dataset of the settings in effect |
| `Configs.AccessorsReadLoadedFile` | middleware/configs.go:84-110 | after a successful load the attached-path and locked-path accessors are false iff the file stores false; the ignore list is the string elements of the stored list, empty when absent; the dataset is the stored one |
| `Socket.Ran` | middleware/connection.go:49-77 | the stages that run form a prefix of marshal, write, read, unmarshal ending at the first failure; no stage runs without a connection; the request is written iff there is a connection and marshalling succeeded |
| `Socket.Delivered` | middleware/connection.go:51-76 | "socket is not initialized" without a connection; otherwise the first failing stage's error, or the decoded response iff all four succeed |
| `Socket.Answer` | middleware/connection.go:79-95 | "request time out error" when the deadline wins, otherwise what the worker delivered |
| `Socket.AnswerOk` | middleware/connection.go:51-95 | a response comes back iff there is a connection, no timeout and every stage succeeds |
| `Socket.SocketCommunication` | middleware/connection.go:49-77 | the staged method delivers `Delivered` and runs exactly the stages `Ran` gives |
| `Socket.HandleSocketCommunication` | middleware/connection.go:79-95 | returns `Answer`; the worker's stages run either way |
| `Calls.CallRequest` | middleware/call.go:15-20 | the request holds exactly id, msg, method and params, with the client's id and msg |
| `Calls.CallWithoutConnection` | middleware/call.go:11-22 | a client without a connection gets "socket is not initialized" when no deadline fires |
| `Calls.Get` | middleware/call.go:11-23 | a nil client gets "client is not initialized" and nothing is sent; otherwise the call request is what is written and the transport's answer comes back unchanged |
| `Calls.Call` | middleware/call.go:5-9 | forwards to the installed client, with the same outcome as `Get` on it |
| `Calls.PingVerdict` | middleware/call.go:30-34 | a call error is returned unchanged; otherwise an error iff the result is not a string |
| `Calls.PingAcceptsAnyString` | middleware/call.go:30-34 | any string result passes the probe; a boolean result fails with the given message |
| `Calls.TestConnection` | middleware/call.go:25-35 | the probe's verdict, with "received invalid response from middleware" for a non-string result |
| `Connection.HandshakeRequest` | middleware/connection.go:10-17 | exactly {msg:"connect", version:"1", support:["1"]} |
| `Connection.LoginRequest` | middleware/connection.go:19-25 | four keys, with the username and password as params |
| `Connection.LoginIsMethodCall` | middleware/connection.go:19-25 | the login request equals the generic call request for "auth.login" with msg "method" |
| `Connection.GenerateSession` | middleware/connection.go:10-17 | sends the handshake request and returns the transport's answer unchanged |
| `Connection.LoginVerdict` | middleware/connection.go:26-34 | a transport error unchanged; "invalid credentials" iff the result is false; the whole response iff true |
| `Connection.LoginSession` | middleware/connection.go:19-35 | sends the login request and returns `LoginVerdict` of the answer |
| `Connection.TestConnection` | middleware/connection.go:37-47 | the probe's verdict, with "invalid credentials" for a non-string result |
| `Middleware.SocketError` | middleware/middleware.go:231-246 | the dial error, then the handshake error, then the login error; with no credentials only dial and handshake can fail |
| `Middleware.SocketErrorLogin` | middleware/middleware.go:241-246 | with both credentials the session opens iff the login answer is true; without them no login is needed |
| `Middleware.NoLoginWithoutCredentials` | middleware/middleware.go:241 | with an empty username or password no login request is written |
| `Middleware.GenerateSocket` | middleware/middleware.go:231-256 | on success installs a fresh client with the session id, msg "method", the credentials and a fresh open connection; on failure the installed client is unchanged; the settings never change |
| `Middleware.IsClientInitialized` | middleware/middleware.go:201-206 | true iff both the config record and its client are non-nil |
| `Middleware.CanVerifyVolumes` | middleware/middleware.go:208-213 | the flag, with "middleware could not be initialized" iff no client is installed |
| `Middleware.TestConnection` | middleware/middleware.go:151-161 | the probe's verdict, with "invalid credentials" for a non-string result; no client gives "client is not initialized" |
| `Middleware.Close` | middleware/middleware.go:278-282 | the connection, if any, is closed |
| `Middleware.DeInitialize` | middleware/middleware.go:194-199 | afterwards no client is installed; an installed client's connection is closed; with none installed nothing changes; settings are kept |
| `Middleware.Initialize` | middleware/middleware.go:172-192 | loads settings only when none exist; reports the config error, else the socket error, else the probe's verdict; a client stays installed after a failure past the config step; with verification off, succeeds with a connectionless client holding the credentials; with verification on, the installed client is generateSocket's, with the session id, msg "method" and an open connection, when the socket opens, and the connectionless one with an empty id when dial, handshake or login fails |
| `Middleware.SafeInitialize` | middleware/middleware.go:163-170 | same verdict as Initialize under the settings it leaves, which are the previous ones, else those read from the file, else the partial ones of a failed load; with verification off and settings available it succeeds; a client is installed afterwards iff there was no error, holding the credentials, and with verification on it has the session id and an open connection; the previous connection is closed |
| `Middleware.RetryAfterConfigFailure` | middleware/middleware.go:172-179 | after a failed load, a second Initialize skips loading and succeeds with zero settings and no connection |

## Left out

- The goroutine, channels, `context.WithTimeout` and `select` of `handleSocketCommunication`: the deadline is the `timedOut` flag of an `Exchange`.
- `InitializeMiddleware`'s 60-second loop, `shutdownLock` and `AcquireShutdownLock`: locking and sleeping.
- `websocket.Dial`, `Read`, `Write`, `Close` and `SetReadLimit`: foreign library calls. Dialing is an error-or-success value; closing sets `Conn.closed`.
- `loadConfig` and `GetLoggerFile`: file I/O. The decoded settings map, or the load error, is a parameter.
- `HandleMapMarshal`, `HandleMapUnmarshal` and middleware/marshal.go: JSON encoding. Their outcomes are the marshal and unmarshal stages of an `Exchange`.
- middleware/main.go: constants only. The 10-second timeout appears only as the `timedOut` flag.
- middleware.go's copies of `GenerateSession`, `LoginSession`, `socketCommunication`, `handleSocketCommunication`, `Call`, `get`, `CanVerifyAttachPath`, `CanVerifyLockedVolumes`, `GetIgnorePaths` and `GetRootDataset` behave like the connection.go, call.go and configs.go versions. They are modelled once, in `Connection`, `Socket`, `Calls` and `Configs`. `CanVerifyVolumes` differs between the two files (middleware.go reports an error when no client is installed) and is modelled per file, as `Configs.CanVerifyVolumes` and `Middleware.CanVerifyVolumes`.
- The `method`, `params`, `shutdownLock` and `reInitialize` fields of `Client`: no modelled operation reads them. `get` passes the `ctx` field to every exchange, and its cancellation, like the 10-second deadline, is covered by the `timedOut` flag of an `Exchange`.
- `errMountConfig`, `errBindSourceDoesNotExist`, `errExtraField` and `errMissingField`: message formatting. Error values are their message strings, without `errors.Errorf`'s stack.
- Go panics on unchecked type assertions are preconditions. These are `value.(string)` in `InitConfig` (`ConfigAnswer`), `["session"].(string)` and `["result"].(bool)` in `generateSocket` and `LoginSession` (`SessionAnswers`, `LoginAnswer`), and the record shapes in `getAttachments` (`AttachmentsAnswer`). So is `pathList[0]` on an empty list in `ixMountValidation`, and `clientConfig` being nil in `Call` and the accessors.
- `filepath.Join` cleaning in `isIXVolumePath`: the dataset name is required to have no empty, "." or ".." segment (`CleanDataset`). An application name that is empty, "." or ".." is cleaned as `filepath.Join` would.
- validate.go's `call.(bool)` and `attachments.([]interface{})` cannot apply to the map that call.go's `Call` returns. The remote call of the validation rules is therefore a `Result<Json>` parameter, not `Calls.Call`.
- Mounts.IsIXVolumePath: its own contract states only the release-prefix condition. The containment test is its body, and `Mounts.IXVolumeRecognised` proves the positive case for ordinary application names.
