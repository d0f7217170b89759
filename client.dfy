/** A chat participant: its identity, the port of its callback endpoint,
    and its Lamport clock. */
module ChatClient {
  import opened Utf8
  import opened Proto
  import opened LamportClock

  const MAX_MESSAGE_BYTES := 128

  /** The check an input line goes through before it is published:
      well-formed UTF-8 and at most 128 bytes long. It only selects the
      log line; the line is sent either way. */
  predicate ValidMessage(input: seq<byte>)
    ensures |input| > MAX_MESSAGE_BYTES ==> !ValidMessage(input)
    ensures (forall i :: 0 <= i < |input| ==> input[i] <= 0x7F) ==> (ValidMessage(input) <==> |input| <= MAX_MESSAGE_BYTES)
  {
    ValidUtf8(input) && |input| <= MAX_MESSAGE_BYTES
  }

  /** An encoded text is accepted exactly when its encoding fits in 128
      bytes; so any text of at most 32 characters is accepted and no text
      of more than 128 characters is. */
  lemma {:induction false} ValidMessageOfText(text: seq<int>)
    requires forall i :: 0 <= i < |text| ==> IsScalarValue(text[i])
    ensures ValidMessage(Encode(text)) <==> |Encode(text)| <= MAX_MESSAGE_BYTES
    ensures |text| <= 32 ==> ValidMessage(Encode(text))
    ensures |text| > MAX_MESSAGE_BYTES ==> !ValidMessage(Encode(text))
  {
    EncodeValid(text);
  }

  class Client {
    const id: int
    const portNumber: int
    var lamportTime: int

    /** A freshly started client, clock at 1. */
    constructor (id: int, portNumber: int)
      ensures this.id == id && this.portNumber == portNumber
      ensures lamportTime == 1
    {
      this.id := id;
      this.portNumber := portNumber;
      lamportTime := 1;
    }

    /** Send rule before the join request: tick once, then stamp the
        request with the new clock, the client's id and its port. */
    method RequestJoin() returns (request: ClientInfo)
      modifies this
      ensures lamportTime == Step(old(lamportTime), Tick)
      ensures request == ClientInfo(id, lamportTime, portNumber, [])
    {
      lamportTime := lamportTime + 1;
      request := ClientInfo(id, lamportTime, portNumber, []);
    }

    /** The callback the server invokes on every join: the receive rule,
        answered with the merged clock. */
    method ClientJoinReturn(info: ClientInfo) returns (reply: ServerInfo)
      modifies this
      ensures lamportTime == Step(old(lamportTime), Receive(info.lamportTime))
      ensures reply == ServerInfo("", lamportTime)
    {
      if lamportTime < info.lamportTime {
        lamportTime := info.lamportTime;
      }
      lamportTime := lamportTime + 1;
      reply := ServerInfo("", lamportTime);
    }

    /** The final tick when the client is interrupted. */
    method Disconnect()
      modifies this
      ensures lamportTime == Step(old(lamportTime), Tick)
    {
      lamportTime := lamportTime + 1;
    }
  }
}
