/** The wire messages shared by the send and gateway services (internal/gateway/push/types/types.go). */
module Messages {
  import opened GoInt

  datatype ClientMessage = ClientMessage(id: int64, kind: string, roomId: int64, senderId: int64, payload: string)

  /** A message and its recipients; the source repeats the five body fields. */
  datatype PushMessage = PushMessage(body: ClientMessage, targets: seq<int64>)
}
