/**
 * What travels over the socket: decoded JSON values, inbound frames,
 * outbound commands, and the state of one WebSocket connection.
 */
module Wire {
  import opened Wrappers

  /** A decoded JSON value. Numbers are kept as integers; their value is opaque to the client. */
  datatype Json =
    | JNull
    | JBool(b: bool)
    | JNumber(n: int)
    | JString(s: string)
    | JArray(items: seq<Json>)
    | JObject(members: map<string, Json>)

  /** A decoded server event: a JSON object whose "type" member names it. */
  type Event = map<string, Json>

  /** One text frame received from the server, after `json.loads`: `None` when it is not JSON. */
  datatype Frame = Frame(decoded: Option<Json>)

  /** How the server's stream of frames ends once every frame has been read. */
  datatype StreamEnd =
    | ClosedOk       // normal close: the `async for` over the socket simply stops
    | ClosedError    // abnormal close: the iteration raises ConnectionClosedError

  /**
   * An outbound client command: its type tag and the fields that were set explicitly.
   * Its wire form is the JSON object of `fields` plus "type": `tag`; unset optional
   * fields (such as `event_id`) are absent.
   */
  datatype Command = Command(tag: string, fields: map<string, Json>)

  /** The protocol state of a WebSocket connection. */
  datatype ConnState = Connecting | Open | Closing | Closed

  /** A WebSocket connection: its state and the frames written to it, oldest first. */
  datatype Socket = Socket(state: ConnState, sent: seq<Command>)

  /** The socket after one more frame, the wire form of `c`, was written to it. */
  function Write(s: Socket, c: Command): Socket {
    s.(sent := s.sent + [c])
  }

  /** A connection is usable exactly when one exists and it is in state OPEN. */
  predicate IsOpen(ws: Option<Socket>) {
    ws.Some? && ws.value.state == Open
  }
}
