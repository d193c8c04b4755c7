/** A queued message: sendItem, with the payload as bytes. */
module Messages {
  newtype byte = x: int | 0 <= x < 256

  const TEXT: int := 1  // websocket.TextMessage

  datatype Item = Item(msgType: int, data: seq<byte>)
}
