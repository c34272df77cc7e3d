/** The MQTT broker manager: the running flag, the message channel between
    `publish` and the handler task, and the table of connected clients. The clock
    (seconds since the epoch) is the parameter `now`. The handler task the broker
    spawns is modelled by `HandlerStep`, one received message per call; the
    interleaving of the task with the other methods is not modelled. */
module MqttBroker {
  import opened Wrappers
  import MqttMessage
  import MqttConfig

  /** `ClientInfo`. */
  datatype ClientInfo = ClientInfo(clientId: string, connectedAt: nat, lastSeen: nat, subscriptions: seq<string>)

  /** `BrokerStats`. */
  datatype BrokerStats = BrokerStats(
    isRunning: bool, connectedClients: nat, totalSubscriptions: nat, listenAddr: string, uptime: nat)

  const ChannelClosed := "Message channel is closed"
  const SendFailed := "Failed to send message"

  /** The number of subscriptions over a client table, in no particular order. */
  ghost function TotalSubscriptions(clients: map<string, ClientInfo>): nat
    decreases |clients|
  {
    if clients == map[] then 0
    else
      var k :| k in clients;
      |clients[k].subscriptions| + TotalSubscriptions(clients - {k})
  }

  /** Any client can be counted first. */
  lemma {:induction false} TotalWithout(clients: map<string, ClientInfo>, k: string)
    requires k in clients
    ensures TotalSubscriptions(clients) == |clients[k].subscriptions| + TotalSubscriptions(clients - {k})
    decreases |clients|
  {
    var j :| j in clients && TotalSubscriptions(clients)
      == |clients[j].subscriptions| + TotalSubscriptions(clients - {j});
    if j != k {
      assert |clients - {j}| == |clients| - 1;
      TotalWithout(clients - {j}, k);
      TotalWithout(clients - {k}, j);
      assert clients - {j} - {k} == clients - {k} - {j};
    }
  }

  /** Inserting or replacing one client changes the total by the difference of its
      subscription counts. */
  lemma TotalAfterInsert(clients: map<string, ClientInfo>, k: string, info: ClientInfo)
    ensures TotalSubscriptions(clients[k := info]) + (if k in clients then |clients[k].subscriptions| else 0)
            == TotalSubscriptions(clients) + |info.subscriptions|
  {
    TotalWithout(clients[k := info], k);
    assert clients[k := info] - {k} == clients - {k};
    if k in clients {
      TotalWithout(clients, k);
    } else {
      assert clients - {k} == clients;
    }
  }

  class Broker {
    const config: MqttConfig.Config
    /** `broker.is_some()`: `start` has created the embedded broker. */
    var hasBroker: bool
    /** The `is_running` cell. */
    var running: bool
    /** `message_sender` holds the channel's only sender. */
    var senderOpen: bool
    /** `message_receiver` still holds the receiver: the handler has not taken it. */
    var receiverInCell: bool
    /** The handler task holds the receiver and is still looping. */
    var handlerActive: bool
    /** The messages sent and not yet received. */
    var queue: seq<MqttMessage.Message>
    /** The `connected_clients` table. */
    var clients: map<string, ClientInfo>

    /** Each entry is filed under its own client id; the receiver is in one place at
        most; messages wait only while a receiver exists. */
    ghost predicate Valid()
      reads this
    {
      && (forall id :: id in clients ==> clients[id].clientId == id)
      && !(receiverInCell && handlerActive)
      && (queue != [] ==> receiverInCell || handlerActive)
    }

    /** `MqttBroker::new`: not running, no clients, the channel open and its
        receiver waiting in its cell. */
    constructor (config: MqttConfig.Config)
      ensures Valid() && this.config == config
      ensures !running && !hasBroker && clients == map[]
      ensures senderOpen && receiverInCell && !handlerActive && queue == []
    {
      this.config := config;
      hasBroker, running := false, false;
      senderOpen, receiverInCell, handlerActive := true, true, false;
      queue := [];
      clients := map[];
    }

    /** `start`: creates the broker, sets the running flag and starts the handler,
        which takes the receiver if it is still in its cell; the channel is not
        reopened, so a broker started after `stop` keeps a closed channel. */
    method Start()
      requires Valid()
      modifies this`hasBroker, this`running, this`receiverInCell, this`handlerActive
      ensures Valid() && hasBroker && running
      ensures handlerActive == (old(handlerActive) || old(receiverInCell)) && !receiverInCell
      ensures unchanged(this`senderOpen, this`queue, this`clients)
    {
      hasBroker := true;
      running := true;
      if receiverInCell {
        receiverInCell := false;
        handlerActive := true;
      }
    }

    /** `stop`: clears the running flag, drops the sender and empties the table. */
    method Stop()
      requires Valid()
      modifies this`running, this`senderOpen, this`clients
      ensures Valid() && !running && !senderOpen && clients == map[]
    {
      running := false;
      senderOpen := false;
      clients := map[];
    }

    /** `is_running`. */
    function IsRunning(): (r: bool)
      reads this
      ensures r == running
    {
      running
    }

    /** `get_client_count`. */
    function ClientCount(): (n: nat)
      reads this
      ensures n == |clients.Keys|
    {
      |clients|
    }

    /** `get_connected_clients`: the entries of the table, in no particular order. */
    function ConnectedClients(): (r: set<ClientInfo>)
      requires Valid()
      reads this
      ensures forall c :: c in r <==> (c.clientId in clients && clients[c.clientId] == c)
    {
      set id | id in clients :: clients[id]
    }

    /** `publish`: the message goes into the channel while the sender is open and a
        receiver exists; once the sender is dropped the channel is closed, and once
        the handler has ended the send fails. */
    method Publish(topic: string, payload: seq<MqttMessage.U8>, qos: MqttMessage.U8, id: string, now: nat)
      returns (r: Result<(), string>)
      requires Valid()
      modifies this`queue
      ensures Valid()
      ensures !senderOpen ==> r == Err(ChannelClosed) && queue == old(queue)
      ensures senderOpen && !(receiverInCell || handlerActive) ==> r == Err(SendFailed) && queue == old(queue)
      ensures senderOpen && (receiverInCell || handlerActive) ==>
        r == Ok(()) && queue == old(queue) + [MqttMessage.New(topic, payload, qos, id, now)]
    {
      var message := MqttMessage.New(topic, payload, qos, id, now);
      if !senderOpen {
        return Err(ChannelClosed);
      }
      if !(receiverInCell || handlerActive) {
        return Err(SendFailed);
      }
      queue := queue + [message];
      r := Ok(());
    }

    /** One turn of the handler task's loop. With nothing queued it waits, or ends
        once the sender is gone. A message received while the broker is stopped
        ends the loop, dropping the receiver and what it still holds; otherwise the
        message's client, if in the table, is marked seen at the message's time. */
    method HandlerStep() returns (received: Option<MqttMessage.Message>)
      requires Valid()
      modifies this`queue, this`handlerActive, this`clients
      ensures Valid()
      ensures !old(handlerActive) || (old(queue) == [] && senderOpen) ==>
        received == None && unchanged(this`queue, this`handlerActive, this`clients)
      ensures old(handlerActive) && old(queue) == [] && !senderOpen ==>
        received == None && !handlerActive && clients == old(clients)
      ensures old(handlerActive) && old(queue) != [] ==> received == Some(old(queue)[0])
      ensures old(handlerActive) && old(queue) != [] && !running ==>
        !handlerActive && queue == [] && clients == old(clients)
      ensures old(handlerActive) && old(queue) != [] && running ==>
        var m := old(queue)[0];
        && handlerActive && queue == old(queue)[1..]
        && clients == if m.clientId.Some? && m.clientId.value in old(clients)
                      then old(clients)[m.clientId.value := old(clients)[m.clientId.value].(lastSeen := m.timestamp)]
                      else old(clients)
    {
      if !handlerActive {
        return None;
      }
      if queue == [] {
        if !senderOpen {
          handlerActive := false;
        }
        return None;
      }
      var message := queue[0];
      queue := queue[1..];
      received := Some(message);
      if !running {
        handlerActive := false;
        queue := [];
        return;
      }
      if message.clientId.Some? && message.clientId.value in clients {
        var cid := message.clientId.value;
        clients := clients[cid := clients[cid].(lastSeen := message.timestamp)];
      }
    }

    /** `add_client`: inserts or replaces the entry, connected and seen now. */
    method AddClient(clientId: string, subscriptions: seq<string>, now: nat)
      requires Valid()
      modifies this`clients
      ensures Valid()
      ensures clients == old(clients)[clientId := ClientInfo(clientId, now, now, subscriptions)]
      ensures TotalSubscriptions(clients) + (if clientId in old(clients) then |old(clients)[clientId].subscriptions| else 0)
              == TotalSubscriptions(old(clients)) + |subscriptions|
    {
      var info := ClientInfo(clientId, now, now, subscriptions);
      TotalAfterInsert(clients, clientId, info);
      clients := clients[clientId := info];
    }

    /** `remove_client`: drops only that entry; `removed` says whether there was one. */
    method RemoveClient(clientId: string) returns (removed: bool)
      requires Valid()
      modifies this`clients
      ensures Valid()
      ensures removed <==> clientId in old(clients)
      ensures clients == old(clients) - {clientId}
      ensures removed ==>
        TotalSubscriptions(clients) + |old(clients)[clientId].subscriptions| == TotalSubscriptions(old(clients))
    {
      removed := clientId in clients;
      if removed {
        TotalWithout(clients, clientId);
      }
      clients := clients - {clientId};
    }

    /** `update_client_subscriptions`: an entry in the table gets the subscriptions
        and is seen now; an absent id changes nothing. */
    method UpdateClientSubscriptions(clientId: string, subscriptions: seq<string>, now: nat)
      requires Valid()
      modifies this`clients
      ensures Valid()
      ensures clientId !in old(clients) ==> clients == old(clients)
      ensures clientId in old(clients) ==>
        clients == old(clients)[clientId := old(clients)[clientId].(subscriptions := subscriptions, lastSeen := now)]
    {
      if clientId in clients {
        clients := clients[clientId := clients[clientId].(subscriptions := subscriptions, lastSeen := now)];
      }
    }

    /** `get_stats`: the flag, the number of clients and the sum of their
        subscription counts, added up by a loop over the table. */
    method GetStats() returns (stats: BrokerStats)
      ensures stats.isRunning == running && stats.connectedClients == |clients|
      ensures stats.totalSubscriptions == TotalSubscriptions(clients)
      ensures stats.listenAddr == MqttConfig.ListenAddr(config) && stats.uptime == 0
    {
      var total := 0;
      var rest := clients;
      while rest != map[]
        invariant rest.Keys <= clients.Keys
        invariant forall id :: id in rest ==> rest[id] == clients[id]
        invariant total + TotalSubscriptions(rest) == TotalSubscriptions(clients)
        decreases |rest|
      {
        var id :| id in rest;
        TotalWithout(rest, id);
        total := total + |rest[id].subscriptions|;
        rest := rest - {id};
      }
      stats := BrokerStats(running, |clients|, total, MqttConfig.ListenAddr(config), 0);
    }
  }

  /** A stopped broker refuses to publish, even after it is started again: `start`
      does not reopen the channel. */
  method StopThenStartStaysClosed(b: Broker, topic: string, id: string, now: nat) returns (r: Result<(), string>)
    requires b.Valid()
    modifies b
    ensures b.running && r == Err(ChannelClosed)
  {
    b.Stop();
    b.Start();
    r := b.Publish(topic, [], 0, id, now);
  }
}
