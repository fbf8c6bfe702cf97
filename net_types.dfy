/** Constants, errors and plain records of the network endpoint. */
module NetTypes {
  import opened Wrappers
  import Regex

  /** Metadata key under which the peer's address is recorded. */
  const RemoteAddrKey := "remoteAddr"
  /** Heartbeat payload: a frame equal to it is never dispatched. */
  const PingData := "ping"
  /** Text of `os.ErrDeadlineExceeded`. */
  const DeadlineText := "i/o timeout"
  /** Seconds added to the read timeout for the idle timer and the read deadline. */
  const IdleGrace := 5

  const DefaultProtocol := "tcp"
  const DefaultServer := ":6335"
  const DefaultReadTimeout := 60

  /** The errors the endpoint returns or records. */
  datatype Error =
    | RouterNil                     // AddRouter(nil)
    | CompileFailed(text: string)   // regexp.Compile's error
    | DuplicateRouter(expr: string) // id already registered; the text names the expression
    | RouterNotFound(id: string)    // RemoveRouter of a missing id
    | ConnNil                       // ResponseMessage.SetBody without a connection
    | WriteFailed(text: string)     // conn.Write's error
    | ListenFailed(text: string)    // net.Listen's error
    | CloseFailed(text: string)     // listener.Close's error
    | DecodeFailed(text: string)    // maps.Map2Struct's error

  /** The error's text as the endpoint builds it. */
  function ErrorText(e: Error): string {
    match e
    case RouterNil => "router can not nil"
    case CompileFailed(t) => t
    case DuplicateRouter(expr) => "duplicate router " + expr
    case RouterNotFound(id) => "router: " + id + " not found"
    case ConnNil => "write err: conn is nil"
    case WriteFailed(t) => t
    case ListenFailed(t) => t
    case CloseFailed(t) => t
    case DecodeFailed(t) => t
  }

  /** Endpoint configuration: transport, bind address, read timeout in seconds (0 disables it). */
  datatype Config = Config(protocol: string, server: string, readTimeout: int)

  /** The rule engine's configuration; the endpoint only consults its logger. */
  datatype RuleConfig = RuleConfig(hasLogger: bool)

  /**
   * An accepted connection: the peer's address and what every `Write` on it
   * returns (`None` for success).
   */
  datatype Connection = Connection(remoteAddr: string, writeErr: Option<string>)

  /** A bound listener and what its `Close` returns. */
  datatype Listener = Listener(addr: string, closeErr: Option<Error>)

  /** `endpoint.Router`: its id, its `From` expression and the processing target it routes to. */
  datatype Router = Router(id: string, from: string, target: string)

  /** A registry entry: the route, its compiled pattern (`None` matches everything) and an id field. */
  datatype RegexpRouter = RegexpRouter(id: string, router: Router, regexp: Option<Regex.Matcher>)
}
