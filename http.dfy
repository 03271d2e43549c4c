/** What a route handler answers and what it pushes out while doing so. */
module Http {
  import opened Messages

  datatype Body =
    | Text(text: string)
    | Ack(success: bool, message: string)
    | HealthReport(status: string, connectedClients: nat, timestamp: nat)

  datatype Response = Response(status: nat, body: Body)

  /**
   * One handled request: the response, the `new_message` emits in the
   * order they were made, and the reply payloads posted back to Messenger.
   */
  datatype Outcome = Outcome(
    response: Response,
    broadcasts: seq<NormalizedMessage>,
    replies: seq<OutboundReply>)
}
