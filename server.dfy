/** The chat server: its Lamport clock, the append-only list of callback
    ports of the participants that joined, and the two RPC handlers. */
module ChatServer {
  import opened Proto
  import opened LamportClock
  import opened ChatClient

  const SERVER_NAME := "Chitty-Chat"

  /** One outbound `ClientJoinReturn` call: the port it is addressed to and
      the request, stamped with the server clock. */
  datatype Notify = Notify(port: int, request: ClientInfo)

  /** The server clock and the notifications sent so far by a broadcast. */
  datatype Broadcasting = Broadcasting(clock: int, sent: seq<Notify>)

  /** The broadcast loop, one port at a time in list order: tick, then
      notify that port with the new clock. Closed form: the k-th
      notification (from 0) carries `clock + 1 + k`, and the clock ends
      `|ports|` higher. */
  function Broadcast(ports: seq<int>, clientId: int, clock: int): (r: Broadcasting)
    ensures r.clock == clock + |ports|
    ensures |r.sent| == |ports|
    ensures forall k :: 0 <= k < |ports| ==>
              r.sent[k] == Notify(ports[k], ClientInfo(clientId, clock + 1 + k, 0, []))
    decreases |ports|
  {
    if ports == [] then Broadcasting(clock, [])
    else
      var prefix := Broadcast(ports[..|ports| - 1], clientId, clock);
      var stamp := prefix.clock + 1;
      Broadcasting(stamp, prefix.sent + [Notify(ports[|ports| - 1], ClientInfo(clientId, stamp, 0, []))])
  }

  /** The server's state as a value. */
  datatype ServerState = ServerState(lamportTime: int, participants: seq<int>)

  datatype JoinOutcome = JoinOutcome(state: ServerState, sent: seq<Notify>, reply: ServerInfo)

  /** What `ParticipantJoins` does to the server state: merge the joiner's
      stamp, append its port (no duplicate check), and broadcast to every
      registered port, the joiner's included. */
  function Join(st: ServerState, info: ClientInfo): (r: JoinOutcome)
    ensures r.state.participants == st.participants + [info.portNumber]
    ensures |r.sent| == |r.state.participants|
    ensures r.state.lamportTime == Merge(st.lamportTime, info.lamportTime) + |r.state.participants|
    ensures r.reply == ServerInfo("", r.state.lamportTime)
  {
    var merged := Merge(st.lamportTime, info.lamportTime);
    var ports := st.participants + [info.portNumber];
    var b := Broadcast(ports, info.clientId, merged);
    JoinOutcome(ServerState(b.clock, ports), b.sent, ServerInfo("", b.clock))
  }

  /** The k-th notification of a join (from 0) goes to the k-th registered
      port, names the joiner, and carries the merged clock plus `1 + k`. */
  lemma JoinNotifications(st: ServerState, info: ClientInfo, k: nat)
    requires k < |Join(st, info).sent|
    ensures Join(st, info).sent[k]
         == Notify(Join(st, info).state.participants[k],
                   ClientInfo(info.clientId, Merge(st.lamportTime, info.lamportTime) + 1 + k, 0, []))
  {
  }

  /** The stamps of one join's notifications are consecutive and therefore
      strictly increasing. */
  lemma JoinStampsIncrease(st: ServerState, info: ClientInfo, k: nat, l: nat)
    requires k < l < |Join(st, info).sent|
    ensures Join(st, info).sent[l].request.lamportTime == Join(st, info).sent[k].request.lamportTime + (l - k)
  {
    JoinNotifications(st, info, k);
    JoinNotifications(st, info, l);
  }

  /** Every stamp of a join, the first and the last included, exceeds the
      joiner's stamp and the old server clock; the last one equals the new
      server clock. */
  lemma JoinStampsBounded(st: ServerState, info: ClientInfo, k: nat)
    requires k < |Join(st, info).sent|
    ensures Join(st, info).sent[k].request.lamportTime > info.lamportTime
    ensures Join(st, info).sent[k].request.lamportTime > st.lamportTime
    ensures Join(st, info).sent[k].request.lamportTime <= Join(st, info).state.lamportTime
    ensures Join(st, info).sent[|Join(st, info).sent| - 1].request.lamportTime == Join(st, info).state.lamportTime
  {
    JoinNotifications(st, info, k);
    JoinNotifications(st, info, |Join(st, info).sent| - 1);
  }

  /** Every join strictly advances the server clock, by at least two: one
      for the merge and one for the joiner's own notification. */
  lemma JoinAdvancesClock(st: ServerState, info: ClientInfo)
    ensures Join(st, info).state.lamportTime >= st.lamportTime + 2
    ensures Join(st, info).state.lamportTime > info.lamportTime + |Join(st, info).sent|
  {
  }

  /** A series of joins, applied in arrival order. */
  function JoinAll(st: ServerState, requests: seq<ClientInfo>): (r: ServerState)
    ensures |r.participants| == |st.participants| + |requests|
    decreases |requests|
  {
    if requests == [] then st
    else Join(JoinAll(st, requests[..|requests| - 1]), requests[|requests| - 1]).state
  }

  /** The joiners' ports, in arrival order. */
  function Ports(requests: seq<ClientInfo>): (r: seq<int>)
    ensures |r| == |requests|
    ensures forall k :: 0 <= k < |requests| ==> r[k] == requests[k].portNumber
    decreases |requests|
  {
    if requests == [] then []
    else Ports(requests[..|requests| - 1]) + [requests[|requests| - 1].portNumber]
  }

  /** The participant list only ever grows at its end, by exactly the
      joiners' ports in arrival order, repeats included. */
  lemma {:induction false} JoinAllAppends(st: ServerState, requests: seq<ClientInfo>)
    ensures JoinAll(st, requests).participants == st.participants + Ports(requests)
    decreases |requests|
  {
    if requests != [] {
      var n := |requests|;
      JoinAllAppends(st, requests[..n - 1]);
    }
  }

  /** Over a series of joins the server clock rises by at least two per join. */
  lemma {:induction false} JoinAllAdvances(st: ServerState, requests: seq<ClientInfo>)
    ensures JoinAll(st, requests).lamportTime >= st.lamportTime + 2 * |requests|
    decreases |requests|
  {
    if requests != [] {
      var n := |requests|;
      var earlier, last := requests[..n - 1], requests[n - 1];
      JoinAllAdvances(st, earlier);
      JoinAdvancesClock(JoinAll(st, earlier), last);
    }
  }

  lemma AppendTwiceCount(xs: seq<int>, p: int)
    ensures multiset(xs + [p, p])[p] == multiset(xs)[p] + 2
  {
    assert multiset(xs + [p, p]) == multiset(xs) + multiset{p, p};
  }

  /** No deduplication: joining twice from one port registers it twice. */
  lemma JoinTwiceSamePort(st: ServerState, a: ClientInfo, b: ClientInfo)
    requires a.portNumber == b.portNumber
    ensures JoinAll(st, [a, b]).participants == st.participants + [a.portNumber, a.portNumber]
    ensures multiset(JoinAll(st, [a, b]).participants)[a.portNumber]
         == multiset(st.participants)[a.portNumber] + 2
  {
    var requests := [a, b];
    assert requests[..1] == [a] && [a][..0] == [];
    JoinAllAppends(st, requests);
    var ports := Ports(requests);
    assert ports == [a.portNumber, a.portNumber];
    AppendTwiceCount(st.participants, a.portNumber);
  }

  /** The stamps a client listening on `port` receives from `sent`, in order. */
  function ReceivedBy(port: int, sent: seq<Notify>): (r: seq<Event>)
    ensures |r| <= |sent|
    ensures forall e :: e in r ==> e.Receive?
    decreases |sent|
  {
    if sent == [] then []
    else
      var last := sent[|sent| - 1];
      ReceivedBy(port, sent[..|sent| - 1])
        + (if last.port == port then [Receive(last.request.lamportTime)] else [])
  }

  /** `e` is the stamp of some notification in `sent` addressed to `port`. */
  predicate SentTo(port: int, sent: seq<Notify>, e: Event) {
    exists k :: 0 <= k < |sent| && sent[k].port == port && e == Receive(sent[k].request.lamportTime)
  }

  /** Each receipt in `ReceivedBy` is the stamp of a notification
      addressed to `port`. */
  lemma {:induction false} ReceivedByFrom(port: int, sent: seq<Notify>)
    ensures forall i :: 0 <= i < |ReceivedBy(port, sent)| ==> SentTo(port, sent, ReceivedBy(port, sent)[i])
    decreases |sent|
  {
    if sent != [] {
      var n := |sent|;
      var prefix := sent[..n - 1];
      ReceivedByFrom(port, prefix);
      var earlier := ReceivedBy(port, prefix);
      var r := ReceivedBy(port, sent);
      assert r == earlier + (if sent[n - 1].port == port then [Receive(sent[n - 1].request.lamportTime)] else []);
      forall i | 0 <= i < |r|
        ensures SentTo(port, sent, r[i])
      {
        if i < |earlier| {
          assert SentTo(port, prefix, earlier[i]);
          var k :| 0 <= k < |prefix| && prefix[k].port == port && earlier[i] == Receive(prefix[k].request.lamportTime);
          assert sent[k] == prefix[k] && r[i] == earlier[i];
        } else {
          assert sent[n - 1].port == port && r[i] == Receive(sent[n - 1].request.lamportTime);
        }
      }
    }
  }

  /** Each notification addressed to `port` is received. */
  lemma {:induction false} ReceivedByComplete(port: int, sent: seq<Notify>, k: nat)
    requires k < |sent| && sent[k].port == port
    ensures exists i :: 0 <= i < |ReceivedBy(port, sent)|
                        && ReceivedBy(port, sent)[i] == Receive(sent[k].request.lamportTime)
    decreases |sent|
  {
    var n := |sent|;
    var prefix := sent[..n - 1];
    var earlier := ReceivedBy(port, prefix);
    var r := ReceivedBy(port, sent);
    assert r == earlier + (if sent[n - 1].port == port then [Receive(sent[n - 1].request.lamportTime)] else []);
    if k < n - 1 {
      assert prefix[k] == sent[k];
      ReceivedByComplete(port, prefix, k);
      var i :| 0 <= i < |earlier| && earlier[i] == Receive(prefix[k].request.lamportTime);
      assert r[i] == earlier[i];
    } else {
      assert r[|earlier|] == Receive(sent[k].request.lamportTime);
    }
  }

  /** The index in `sent` of the notification that the `i`-th receipt of
      `port` comes from. */
  function Origin(port: int, sent: seq<Notify>, i: nat): (k: nat)
    requires i < |ReceivedBy(port, sent)|
    ensures k < |sent| && sent[k].port == port
    ensures ReceivedBy(port, sent)[i] == Receive(sent[k].request.lamportTime)
    decreases |sent|
  {
    var n := |sent|;
    var prefix := sent[..n - 1];
    assert ReceivedBy(port, sent)
        == ReceivedBy(port, prefix) + (if sent[n - 1].port == port then [Receive(sent[n - 1].request.lamportTime)] else []);
    if i < |ReceivedBy(port, prefix)| then
      var k := Origin(port, prefix, i);
      assert sent[k] == prefix[k];
      k
    else n - 1
  }

  /** Receipts keep the order in which the notifications were sent, and
      no notification is received twice. */
  lemma {:induction false} ReceivedInOrder(port: int, sent: seq<Notify>, i: nat, j: nat)
    requires i < j < |ReceivedBy(port, sent)|
    ensures Origin(port, sent, i) < Origin(port, sent, j)
    decreases |sent|
  {
    var prefix := sent[..|sent| - 1];
    if j < |ReceivedBy(port, prefix)| {
      ReceivedInOrder(port, prefix, i, j);
    }
  }

  /** Every notification addressed to `port` is the origin of one of its
      receipts; with `ReceivedInOrder`, the receipts are exactly the
      stamps sent to `port`, once each, in send order. */
  lemma {:induction false} OriginOnto(port: int, sent: seq<Notify>, k: nat)
    requires k < |sent| && sent[k].port == port
    ensures exists i :: 0 <= i < |ReceivedBy(port, sent)| && Origin(port, sent, i) == k
    decreases |sent|
  {
    var n := |sent|;
    var prefix := sent[..n - 1];
    var earlier := ReceivedBy(port, prefix);
    assert ReceivedBy(port, sent)
        == earlier + (if sent[n - 1].port == port then [Receive(sent[n - 1].request.lamportTime)] else []);
    if k < n - 1 {
      assert prefix[k] == sent[k];
      OriginOnto(port, prefix, k);
      var i :| 0 <= i < |earlier| && Origin(port, prefix, i) == k;
      assert Origin(port, sent, i) == k;
    } else {
      assert Origin(port, sent, |earlier|) == k;
    }
  }

  /** A port receives nothing exactly when no notification is addressed to it. */
  lemma ReceivedByEmpty(port: int, sent: seq<Notify>)
    ensures ReceivedBy(port, sent) == [] <==> forall k :: 0 <= k < |sent| ==> sent[k].port != port
  {
    var r := ReceivedBy(port, sent);
    if r == [] {
      forall k | 0 <= k < |sent| ensures sent[k].port != port {
        if sent[k].port == port {
          ReceivedByComplete(port, sent, k);
        }
      }
    } else {
      ReceivedByFrom(port, sent);
      assert 0 < |r|;
    }
  }

  lemma ReceivedBySnoc(port: int, sent: seq<Notify>, n: Notify)
    ensures ReceivedBy(port, sent + [n])
         == ReceivedBy(port, sent) + (if n.port == port then [Receive(n.request.lamportTime)] else [])
  {
    assert (sent + [n])[..|sent|] == sent;
  }

  /** One notification as the client on `port` sees it: its clock takes
      the receive rule if the notification is addressed to it, and is
      untouched otherwise. */
  lemma DeliveryStep(origin: int, before: int, after: int, port: int, sent: seq<Notify>, n: Notify)
    requires before == Run(origin, ReceivedBy(port, sent))
    requires after == if n.port == port then Merge(before, n.request.lamportTime) else before
    ensures after == Run(origin, ReceivedBy(port, sent + [n]))
  {
    ReceivedBySnoc(port, sent, n);
    if n.port == port {
      RunSnoc(origin, ReceivedBy(port, sent), Receive(n.request.lamportTime));
    } else {
      assert ReceivedBy(port, sent + [n]) == ReceivedBy(port, sent);
    }
  }

  /** Causality across the network: a client that received a notification
      ends with a clock strictly above that notification's stamp. */
  lemma ReceivedAbove(clock: int, port: int, sent: seq<Notify>, k: nat)
    requires k < |sent| && sent[k].port == port
    ensures Run(clock, ReceivedBy(port, sent)) > sent[k].request.lamportTime
  {
    ReceivedByComplete(port, sent, k);
    var received := ReceivedBy(port, sent);
    var i :| 0 <= i < |received| && received[i] == Receive(sent[k].request.lamportTime);
    RunAboveReceived(clock, received, i);
  }

  /** The clients that listen on their own `portNumber`: a TCP port from 1
      to 65535, pairwise distinct. A client whose listen call fails exits,
      and one started on port 0 listens on a port the server cannot know,
      so neither belongs here. */
  predicate Listening(network: seq<Client>) {
    && (forall j :: 0 <= j < |network| ==> 0 < network[j].portNumber < 65536)
    && (forall i, j :: 0 <= i < j < |network| ==> network[i].portNumber != network[j].portNumber)
  }

  /** The client listening on `port`, if any. */
  function Lookup(network: seq<Client>, port: int): (r: Option<nat>)
    ensures r.Some? ==> r.value < |network| && network[r.value].portNumber == port
    ensures r.None? ==> forall j :: 0 <= j < |network| ==> network[j].portNumber != port
    decreases |network|
  {
    if network == [] then None
    else if network[0].portNumber == port then Some(0)
    else match Lookup(network[1..], port)
      case None => assert forall j :: 1 <= j < |network| ==> network[j] == network[1..][j - 1]; None
      case Some(j) => Some(j + 1)
  }

  class Server {
    const name: string
    const port: int
    var lamportTime: int
    var participants: seq<int>

    /** A freshly started server: clock at 1, nobody joined. */
    constructor (port: int)
      ensures name == SERVER_NAME && this.port == port
      ensures lamportTime == 1 && participants == []
    {
      name := SERVER_NAME;
      this.port := port;
      lamportTime := 1;
      participants := [];
    }

    function State(): (st: ServerState)
      reads this
    {
      ServerState(lamportTime, participants)
    }

    /** The publish handler: acknowledges with the server's name and
        carries no clock; it reads no state of the request. */
    function ParticipantMessages(info: ClientInfo): (r: ServerInfo)
      ensures r.serverName == name && r.lamportTime == 0
    {
      ServerInfo(name, 0)
    }

    /** One pass of the broadcast loop: tick, then call back the client
        listening on `p`, if there is one, with the new clock. */
    method NotifyParticipant(p: int, clientId: int, network: seq<Client>) returns (n: Notify)
      requires Listening(network)
      modifies this`lamportTime, set c | c in network
      ensures lamportTime == old(lamportTime) + 1
      ensures n == Notify(p, ClientInfo(clientId, lamportTime, 0, []))
      ensures forall j :: 0 <= j < |network| ==>
                network[j].lamportTime
                  == if network[j].portNumber == p then Merge(old(network[j].lamportTime), lamportTime)
                     else old(network[j].lamportTime)
    {
      lamportTime := lamportTime + 1;
      var request := ClientInfo(clientId, lamportTime, 0, []);
      var target := Lookup(network, p);
      if target.Some? {
        var _ := network[target.value].ClientJoinReturn(request);
      }
      n := Notify(p, request);
    }

    /** The join handler. `network` stands for the clients listening on
        their callback ports: a notification to a port where a client
        listens runs that client's `ClientJoinReturn`; one to any other
        port fails. Either way the reply or error is dropped and the loop
        goes on. */
    method ParticipantJoins(info: ClientInfo, network: seq<Client>) returns (reply: ServerInfo, sent: seq<Notify>)
      requires Listening(network)
      modifies this, set c | c in network
      ensures State() == Join(old(State()), info).state
      ensures sent == Join(old(State()), info).sent
      ensures reply == Join(old(State()), info).reply
      ensures forall j :: 0 <= j < |network| ==>
                network[j].lamportTime == Run(old(network[j].lamportTime), ReceivedBy(network[j].portNumber, sent))
    {
      if lamportTime < info.lamportTime {
        lamportTime := info.lamportTime;
      }
      lamportTime := lamportTime + 1;
      ghost var merged := lamportTime;

      participants := participants + [info.portNumber];

      sent := [];
      var i := 0;
      while i < |participants|
        invariant 0 <= i <= |participants|
        invariant participants == old(participants) + [info.portNumber]
        invariant Broadcast(participants[..i], info.clientId, merged) == Broadcasting(lamportTime, sent)
        invariant forall j :: 0 <= j < |network| ==>
                    network[j].lamportTime == Run(old(network[j].lamportTime), ReceivedBy(network[j].portNumber, sent))
      {
        label beforeNotify:
        var n := NotifyParticipant(participants[i], info.clientId, network);
        forall j | 0 <= j < |network|
          ensures network[j].lamportTime == Run(old(network[j].lamportTime), ReceivedBy(network[j].portNumber, sent + [n]))
        {
          DeliveryStep(old(network[j].lamportTime), old@beforeNotify(network[j].lamportTime), network[j].lamportTime,
                       network[j].portNumber, sent, n);
        }
        assert participants[..i + 1][..i] == participants[..i];
        sent := sent + [n];
        i := i + 1;
      }
      assert participants[..i] == participants;
      assert merged == Merge(old(lamportTime), info.lamportTime);
      assert Join(old(State()), info) == JoinOutcome(State(), sent, ServerInfo("", lamportTime));
      reply := ServerInfo("", lamportTime);
    }
  }
}
