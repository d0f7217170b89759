/** A client's session against the server: join once, then publish every
    input line. The RPC stubs are direct calls on the server object. */
module ClientSession {
  import opened Utf8
  import opened Proto
  import opened LamportClock
  import opened ChatClient
  import opened ChatServer

  /** One published line: the request sent, whether the line passed the
      validity check (which only selects the log line), and the reply, or
      `None` when the call failed. */
  datatype Publish = Publish(request: ClientInfo, valid: bool, reply: Option<ServerInfo>)

  /** The input loop: every line is sent, valid or not, carrying the
      client's id and the text but no clock. A line that is not
      well-formed UTF-8 cannot be encoded, so its call fails before it
      reaches the server; every other line, an over-long one included, is
      answered with the server's name. The client clock is not touched. */
  method PublishLines(client: Client, server: Server, inputs: seq<seq<byte>>) returns (log: seq<Publish>)
    ensures |log| == |inputs|
    ensures forall k :: 0 <= k < |inputs| ==>
              log[k] == Publish(ClientInfo(client.id, 0, 0, inputs[k]), ValidMessage(inputs[k]),
                                if ValidUtf8(inputs[k]) then Some(ServerInfo(server.name, 0)) else None)
  {
    log := [];
    var i := 0;
    while i < |inputs|
      invariant 0 <= i <= |inputs|
      invariant |log| == i
      invariant forall k :: 0 <= k < i ==>
                  log[k] == Publish(ClientInfo(client.id, 0, 0, inputs[k]), ValidMessage(inputs[k]),
                                    if ValidUtf8(inputs[k]) then Some(ServerInfo(server.name, 0)) else None)
    {
      var input := inputs[i];
      var valid := ValidMessage(input);
      var request := ClientInfo(client.id, 0, 0, input);
      var reply := None;
      if Encodable(request) {
        var answer := server.ParticipantMessages(request);
        reply := Some(answer);
      }
      log := log + [Publish(request, valid, reply)];
      i := i + 1;
    }
  }

  /** The session: tick and send the join request, ignore the reply's
      clock, then publish the input lines. While the join is handled the
      server calls back every client in `network`, this one included when
      it listens there. */
  method WaitForJoinRequest(client: Client, server: Server, network: seq<Client>, inputs: seq<seq<byte>>)
    returns (sent: seq<Notify>, log: seq<Publish>)
    requires Listening(network)
    modifies client, server, set c | c in network
    ensures server.State()
         == Join(old(server.State()), ClientInfo(client.id, old(client.lamportTime) + 1, client.portNumber, [])).state
    ensures sent == Join(old(server.State()), ClientInfo(client.id, old(client.lamportTime) + 1, client.portNumber, [])).sent
    ensures forall j :: 0 <= j < |network| ==>
              network[j].lamportTime
                == Run(old(network[j].lamportTime) + (if network[j] == client then 1 else 0),
                       ReceivedBy(network[j].portNumber, sent))
    ensures client !in network ==> client.lamportTime == old(client.lamportTime) + 1
    ensures |log| == |inputs|
    ensures forall k :: 0 <= k < |inputs| ==>
              log[k] == Publish(ClientInfo(client.id, 0, 0, inputs[k]), ValidMessage(inputs[k]),
                                if ValidUtf8(inputs[k]) then Some(ServerInfo(server.name, 0)) else None)
  {
    var request := client.RequestJoin();
    var _, notified := server.ParticipantJoins(request, network);
    sent := notified;
    log := PublishLines(client, server, inputs);
  }

  /** The two joins of the trace on values: a fresh server (clock 1), then
      two fresh clients on ports 5001 and 5002, each of which ticks to 2
      before it asks to join. */
  lemma TwoJoinsTrace()
    ensures Join(ServerState(1, []), ClientInfo(1, 2, 5001, []))
         == JoinOutcome(ServerState(4, [5001]), [Notify(5001, ClientInfo(1, 4, 0, []))], ServerInfo("", 4))
    ensures Join(ServerState(4, [5001]), ClientInfo(2, 2, 5002, []))
         == JoinOutcome(ServerState(7, [5001, 5002]),
                        [Notify(5001, ClientInfo(2, 6, 0, [])), Notify(5002, ClientInfo(2, 7, 0, []))],
                        ServerInfo("", 7))
  {
    var first := Join(ServerState(1, []), ClientInfo(1, 2, 5001, []));
    assert |first.sent| == 1 && first.sent[0] == Notify(5001, ClientInfo(1, 4, 0, []));
    var second := Join(ServerState(4, [5001]), ClientInfo(2, 2, 5002, []));
    assert |second.sent| == 2 && second.sent[0] == Notify(5001, ClientInfo(2, 6, 0, []));
    assert second.sent[1] == Notify(5002, ClientInfo(2, 7, 0, []));
  }

  /** What the two clients make of those notifications. */
  lemma TwoJoinsDeliveries()
    ensures Run(2, ReceivedBy(5001, [Notify(5001, ClientInfo(1, 4, 0, []))])) == 5
    ensures Run(1, ReceivedBy(5002, [Notify(5001, ClientInfo(1, 4, 0, []))])) == 1
    ensures Run(5, ReceivedBy(5001, [Notify(5001, ClientInfo(2, 6, 0, [])), Notify(5002, ClientInfo(2, 7, 0, []))])) == 7
    ensures Run(2, ReceivedBy(5002, [Notify(5001, ClientInfo(2, 6, 0, [])), Notify(5002, ClientInfo(2, 7, 0, []))])) == 8
  {
    var one := [Notify(5001, ClientInfo(1, 4, 0, []))];
    var two := [Notify(5001, ClientInfo(2, 6, 0, [])), Notify(5002, ClientInfo(2, 7, 0, []))];
    assert one[..0] == [] && two[..1] == [two[0]] && [two[0]][..0] == [];
    assert ReceivedBy(5001, one) == [Receive(4)];
    assert ReceivedBy(5002, one) == [];
    assert ReceivedBy(5001, two) == [Receive(6)];
    assert ReceivedBy(5002, two) == [Receive(7)];
    assert [Receive(4)][..0] == [];
  }

  /** Two clients on ports 5001 and 5002 join one after the other and then
      shut down: the server ends at 7, the clients at 8 and 9. */
  method TwoClientsJoin() returns (serverClock: int, firstClock: int, secondClock: int, sent: seq<Notify>)
    ensures serverClock == 7 && firstClock == 8 && secondClock == 9
    ensures sent == [Notify(5001, ClientInfo(2, 6, 0, [])), Notify(5002, ClientInfo(2, 7, 0, []))]
  {
    TwoJoinsTrace();
    TwoJoinsDeliveries();
    var server := new Server(5000);
    var first := new Client(1, 5001);
    var second := new Client(2, 5002);
    var network := [first, second];

    var _, _ := WaitForJoinRequest(first, server, network, []);
    assert network[0] == first && network[1] == second && first != second;
    assert first.lamportTime == 5 && second.lamportTime == 1 && server.State() == ServerState(4, [5001]);

    var log;
    sent, log := WaitForJoinRequest(second, server, network, []);
    assert first.lamportTime == 7 && second.lamportTime == 8 && server.lamportTime == 7;

    first.Disconnect();
    second.Disconnect();
    serverClock, firstClock, secondClock := server.lamportTime, first.lamportTime, second.lamportTime;
  }

  /** A client started without a callback port (port 0) joins a fresh
      server. Nobody listens on port 0, so the network is empty: the server
      registers port 0 and its notification fails, and the client's clock
      is only its own tick. */
  method DefaultPortJoin() returns (serverClock: int, clientClock: int, sent: seq<Notify>)
    ensures serverClock == 4 && clientClock == 2
    ensures sent == [Notify(0, ClientInfo(1, 4, 0, []))]
  {
    var server := new Server(5000);
    var client := new Client(1, 0);
    var outcome := Join(ServerState(1, []), ClientInfo(1, 2, 0, []));
    assert |outcome.sent| == 1 && outcome.sent[0] == Notify(0, ClientInfo(1, 4, 0, []));
    var log;
    sent, log := WaitForJoinRequest(client, server, [], []);
    serverClock, clientClock := server.lamportTime, client.lamportTime;
  }
}
