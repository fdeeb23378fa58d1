/**
 * The shapes exchanged with the inspector-protocol client library. The library itself
 * (connecting, `Debugger.enable`, `setBreakpointByUrl`, `removeBreakpoint`) is outside the
 * model: each call's outcome is a parameter of the operation that makes it.
 */
module Inspector {
  import opened Base

  /** A connected client; `id` stands for its object identity. */
  datatype Client = Client(id: nat, webSocketUrl: string)

  /** A location as `Debugger.setBreakpointByUrl` reports it. */
  datatype RawLocation = RawLocation(scriptId: string, lineNumber: int, columnNumber: int)

  /** The reply to `Debugger.setBreakpointByUrl`; `locations` may be missing. */
  datatype SetBreakpointReply = SetBreakpointReply(breakpointId: string, locations: Option<seq<RawLocation>>)
}
