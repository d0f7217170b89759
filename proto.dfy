/** The RPC messages exchanged by the server and the clients. A field the
    sender leaves unset reads as its zero value, as in proto3. */
module Proto {
  import opened Utf8

  /** `ClientInfo`: sent by a client on join and on publish, and by the
      server on each join notification. */
  datatype ClientInfo = ClientInfo(clientId: int, lamportTime: int, portNumber: int, message: seq<byte>)

  /** `ServerInfo`: the reply to every call. */
  datatype ServerInfo = ServerInfo(serverName: string, lamportTime: int)

  datatype Option<T> = None | Some(value: T)

  /** proto3 requires a `string` field to hold well-formed UTF-8, and the
      Go encoder refuses to marshal a message whose `message` does not:
      such a call fails on the client and never reaches the server. */
  predicate Encodable(info: ClientInfo) {
    ValidUtf8(info.message)
  }
}
