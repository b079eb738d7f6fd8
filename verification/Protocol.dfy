/**
  The messages of a persistent connection, with their fields by name, as the protocol
  uses them.
 */
module Protocol {
  import opened Options
  import opened Wire

  /** The oneof of `CallUnaryResponse`. */
  datatype UnaryResult = Response(b: seq<byte>) | Failure(b: seq<byte>) | NoResult

  /** `PersistentConnectionRequest` */
  datatype Request = Request(callId: seq<byte>, body: RequestBody)

  datatype RequestBody =
    | AddUnaryHandler(proto: seq<byte>)
    | CallUnary(peer: seq<byte>, proto: seq<byte>, data: seq<byte>)
    | UnaryResponse(result: UnaryResult)
    | CancelRequest
    | NoRequest

  /** `PersistentConnectionResponse` */
  datatype Reply = Reply(callId: seq<byte>, body: ReplyBody)

  datatype ReplyBody =
    | CallUnaryResponse(result: UnaryResult)
    | RequestHandling(peer: seq<byte>, proto: seq<byte>, data: seq<byte>)
    | DaemonError(message: Option<seq<byte>>)
    | Cancelled
    | Done
}
