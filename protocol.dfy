/** The JSON envelopes exchanged over a terminal's websocket. */
module Protocol {
  import opened Common

  /** What the server sends to the browser (the `type` field names the variant). */
  datatype Envelope =
    | TerminalStarted(sessionId: string, agentType: string, agentName: string, cwd: string)
    | TerminalOutput(data: string)
    | TerminalClosed(exitCode: Option<int>, readCount: nat)
    | ImageAdded(path: string, filename: string, agentType: string)
    | Error(message: string)
    | Pong
    | InjectInput(data: string)
    | BroadcastMessage(sender: string, message: string)

  /** What the browser sends: a JSON object whose keys may be missing. */
  datatype ClientMessage = ClientMessage(
    msgType: Option<string>,
    data: Option<string>,
    rows: Option<int>,
    cols: Option<int>,
    filename: Option<string>)
}
