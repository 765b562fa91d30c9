/**
 * The singleton facade (Runtime/MqttNet.cs): the root's registry of client
 * components keyed by client type, the shared topic cache, and the
 * get-or-add entry points that delegate to the helper.
 */
module Net {
  import opened Wrappers
  import opened Errors
  import opened Subscriptions
  import opened Clients
  import TopicCaches
  import MqttHelper

  /** The host framework's root entity, reduced to its client children by id. */
  class Root {
    var clients: map<int, ClientComponent>

    /** Every client sits under its own id, and no two clients share a library client. */
    ghost predicate Valid()
      reads this, clients.Values
    {
      && (forall k :: k in clients ==> clients[k].id == k && clients[k].Valid())
      && (forall k, k' :: k in clients && k' in clients && k != k' ==> clients[k].conn != clients[k'].conn)
    }

    constructor ()
      ensures clients == map[] && Valid()
    {
      clients := map[];
    }
  }

  class MqttNet {
    var root: Root?
    var cache: TopicCaches.TopicCache?
    /** Whether the MQTT library's factory is held; the factory itself is the library's. */
    var hasFactory: bool

    /** Between Awake and Destroy all three references are set; after Destroy none is. */
    ghost predicate Valid()
      reads this, root, if root == null then {} else root.clients.Values
    {
      && (root == null <==> cache == null)
      && (root == null <==> !hasFactory)
      && (root != null ==> root.Valid())
    }

    /** The frame of one client: the client, its connection and its subscription children. */
    ghost function ClientFrame(clientType: int): set<object>
      reads this, root, if root == null then {} else root.clients.Values
    {
      if root != null && clientType in root.clients
      then var c := root.clients[clientType]; {c as object, c.conn} + c.subscribers.Values
      else {}
    }

    /** The client under `clientType`, as a frame: empty when there is none. */
    ghost function Client(clientType: int): set<ClientComponent>
      reads this, root
    {
      if root != null && clientType in root.clients then {root.clients[clientType]} else {}
    }

    /** The connection of the client under `clientType`, as a frame. */
    ghost function ClientConn(clientType: int): set<Connection>
      reads this, root
    {
      if root != null && clientType in root.clients then {root.clients[clientType].conn} else {}
    }

    /** The subscription child under `topicType` of the client under `clientType`, as a frame. */
    ghost function ClientChild(clientType: int, topicType: int): set<SubscribeComponent>
      reads this, root, if root == null then {} else root.clients.Values
    {
      if root != null && clientType in root.clients && topicType in root.clients[clientType].subscribers
      then {root.clients[clientType].subscribers[topicType]}
      else {}
    }

    constructor Awake(root: Root)
      requires root.Valid()
      ensures Valid()
      ensures this.root == root && hasFactory
      ensures fresh(cache) && cache.i2s == map[] && cache.s2i == map[]
    {
      hasFactory := true;
      cache := new TopicCaches.TopicCache();
      this.root := root;
    }

    /** The client under `clientType`, added when missing; 0 is rejected. */
    method GetOrAddMqttClient(clientType: int) returns (r: Result<ClientComponent, Error>)
      requires Valid()
      modifies root
      ensures Valid() && root == old(root)
      ensures clientType == 0 ==> r == Failure(ZeroTypeRejected) && (root != null ==> root.clients == old(root.clients))
      ensures clientType != 0 && root == null ==> r == Failure(NullReference)
      ensures clientType != 0 && root != null && clientType in old(root.clients) ==>
                r == Success(old(root.clients)[clientType]) && root.clients == old(root.clients)
      ensures clientType != 0 && root != null && clientType !in old(root.clients) ==>
                && r.Success? && fresh(r.value)
                && root.clients == old(root.clients)[clientType := r.value]
                && r.value.subscribers == map[] && r.value.publishers == []
                && fresh(r.value.conn) && r.value.conn.log == []
    {
      if clientType == 0 {
        return Failure(ZeroTypeRejected);
      }
      if root == null {
        return Failure(NullReference);
      }
      if clientType in root.clients {
        return Success(root.clients[clientType]);
      }
      var c := new ClientComponent(clientType);
      root.clients := root.clients[clientType := c];
      r := Success(c);
    }

    /** The client under `clientType`, or null; 0 is rejected and nothing is ever added. */
    method GetMqttClient(clientType: int) returns (r: Result<Option<ClientComponent>, Error>)
      ensures clientType == 0 ==> r == Failure(ZeroTypeRejected)
      ensures clientType != 0 && root == null ==> r == Failure(NullReference)
      ensures clientType != 0 && root != null ==>
                && r.Success?
                && (r.value.Some? <==> clientType in root.clients)
                && (r.value.Some? ==> r.value.value == root.clients[clientType])
      ensures Valid() && r.Success? && r.value.Some? ==> r.value.value.id == clientType
    {
      if clientType == 0 {
        return Failure(ZeroTypeRejected);
      }
      if root == null {
        return Failure(NullReference);
      }
      if clientType in root.clients {
        return Success(Some(root.clients[clientType]));
      }
      r := Success(None);
    }

    /**
     * The subscription child of a client, added when missing. Topic type 0 is
     * rejected first; a missing client gives null and adds nothing; the client
     * type itself is not checked.
     */
    method GetOrAddSubscribeTopic(clientType: int, topicType: int) returns (r: Result<Option<SubscribeComponent>, Error>)
      requires Valid()
      modifies Client(clientType)`subscribers
      ensures Valid()
      ensures topicType == 0 ==> r == Failure(ZeroTypeRejected)
      ensures topicType != 0 && root == null ==> r == Failure(NullReference)
      ensures topicType != 0 && root != null && clientType !in root.clients ==> r == Success(None)
      ensures root != null && clientType in root.clients ==>
                var c := root.clients[clientType];
                && (topicType == 0 ==> c.subscribers == old(c.subscribers))
                && (topicType != 0 && topicType in old(c.subscribers) ==>
                      r == Success(Some(old(c.subscribers)[topicType])) && c.subscribers == old(c.subscribers))
                && (topicType != 0 && topicType !in old(c.subscribers) ==>
                      && r.Success? && r.value.Some? && fresh(r.value.value)
                      && c.subscribers == old(c.subscribers)[topicType := r.value.value]
                      && r.value.value.topicName == cache.GetName(topicType)
                      && r.value.value.filter == Some(TopicFilter(r.value.value.topicName))
                      && !r.value.value.isSubscribing)
    {
      if topicType == 0 {
        return Failure(ZeroTypeRejected);
      }
      if root == null {
        return Failure(NullReference);
      }
      if clientType !in root.clients {
        return Success(None);
      }
      var c := root.clients[clientType];
      var s := MqttHelper.GetOrAddSubscribeTopic(c, topicType, cache);
      r := Success(Some(s.value));
    }

    /** The helper's find-or-add on the client's publishers, or null when the client is missing. */
    method GetOrAddPublishTopic(clientType: int, topic: string) returns (r: Result<Option<PublishComponent>, Error>)
      requires Valid()
      modifies Client(clientType)`publishers
      ensures Valid()
      ensures root == null ==> r == Failure(NullReference)
      ensures root != null && clientType !in root.clients ==> r == Success(None)
      ensures root != null && clientType in root.clients ==>
                var c := root.clients[clientType];
                && r.Success? && r.value.Some? && r.value.value.topic == topic
                && ((exists j :: 0 <= j < |old(c.publishers)| && old(c.publishers)[j].topic == topic) ==>
                      && c.publishers == old(c.publishers)
                      && exists j :: 0 <= j < |old(c.publishers)| && old(c.publishers)[j] == r.value.value
                                     && forall j' :: 0 <= j' < j ==> old(c.publishers)[j'].topic != topic)
                && ((forall j :: 0 <= j < |old(c.publishers)| ==> old(c.publishers)[j].topic != topic) ==>
                      fresh(r.value.value) && c.publishers == old(c.publishers) + [r.value.value])
    {
      if root == null {
        return Failure(NullReference);
      }
      if clientType !in root.clients {
        return Success(None);
      }
      var p := MqttHelper.GetOrAddPublishTopic(root.clients[clientType], topic);
      r := Success(Some(p));
    }

    /** The helper's AddSubscribeTopics on the client, skipped when the client is missing. */
    method AddSubscribeTopics(clientType: int, topicTypes: seq<int>) returns (r: Outcome<Error>)
      requires Valid()
      requires root != null && clientType in root.clients ==>
                 var c := root.clients[clientType];
                 && (forall i :: 0 <= i < MqttHelper.AcceptedCount(topicTypes) ==> topicTypes[i] !in c.subscribers)
                 && (forall i, j :: 0 <= i < j < MqttHelper.AcceptedCount(topicTypes) ==> topicTypes[i] != topicTypes[j])
      modifies Client(clientType)`subscribers
      ensures Valid()
      ensures root == null ==> r == Fail(NullReference)
      ensures root != null && clientType !in root.clients ==> r == Pass
      ensures root != null && clientType in root.clients ==>
                var c := root.clients[clientType];
                var accepted := MqttHelper.AcceptedCount(topicTypes);
                && r == (if accepted < |topicTypes| then Fail(ZeroTypeRejected) else Pass)
                && c.subscribers.Keys == old(c.subscribers).Keys + (set i | 0 <= i < accepted :: topicTypes[i])
                && (forall k :: k in old(c.subscribers) ==> c.subscribers[k] == old(c.subscribers)[k])
                && (forall i :: 0 <= i < accepted ==>
                      && fresh(c.subscribers[topicTypes[i]])
                      && c.subscribers[topicTypes[i]].topicName == cache.GetName(topicTypes[i])
                      && c.subscribers[topicTypes[i]].filter == Some(TopicFilter(cache.GetName(topicTypes[i])))
                      && !c.subscribers[topicTypes[i]].isSubscribing)
    {
      if root == null {
        return Fail(NullReference);
      }
      if clientType !in root.clients {
        return Pass;
      }
      r := MqttHelper.AddSubscribeTopics(root.clients[clientType], topicTypes, cache);
    }

    /**
     * GetOrAddSubscribeTopic(...).Subscribe(): the child is created when
     * missing; a missing client makes the call a null dereference.
     */
    method Subscribe(clientType: int, topicType: int, fails: bool) returns (r: Outcome<Error>)
      requires Valid()
      modifies Client(clientType)`subscribers, ClientConn(clientType)`log, ClientChild(clientType, topicType)`isSubscribing
      ensures Valid()
      ensures topicType == 0 ==> r == Fail(ZeroTypeRejected) && unchanged(old(ClientFrame(clientType)))
      ensures topicType != 0 && (root == null || clientType !in root.clients) ==> r == Fail(NullReference)
      ensures topicType != 0 && root != null && clientType in root.clients ==>
                var c := root.clients[clientType];
                topicType in c.subscribers &&
                var s := c.subscribers[topicType];
                var was := topicType in old(c.subscribers) && old(c.subscribers[topicType].isSubscribing);
                && c.subscribers == old(c.subscribers)[topicType := s]
                && (topicType in old(c.subscribers) ==> s == old(c.subscribers)[topicType])
                && (topicType !in old(c.subscribers) ==>
                      && fresh(s) && s.topicName == cache.GetName(topicType)
                      && s.filter == Some(TopicFilter(cache.GetName(topicType))))
                && s.isSubscribing == Next(was, SubscribeCall(fails))
                && c.conn.log == old(c.conn.log) + (if was then [] else [SubscribeRequest(topicType, s.filter)])
                && r == (if !was && fails then Fail(TransportFailure) else Pass)
    {
      var s := GetOrAddSubscribeTopic(clientType, topicType);
      if s.Failure? {
        return Fail(s.error);
      }
      if s.value.None? {
        return Fail(NullReference);
      }
      var c := root.clients[clientType];
      assert c.Valid() && topicType in c.subscribers;
      r := s.value.value.Subscribe(fails);
    }

    /**
     * GetOrAddSubscribeTopic(...).Unsubscribe(): the child is created when
     * missing and then sent the as-written Unsubscribe.
     */
    method Unsubscribe(clientType: int, topicType: int, fails: bool) returns (r: Outcome<Error>)
      requires Valid()
      modifies Client(clientType)`subscribers, ClientConn(clientType)`log, ClientChild(clientType, topicType)`isSubscribing
      ensures Valid()
      ensures topicType == 0 ==> r == Fail(ZeroTypeRejected) && unchanged(old(ClientFrame(clientType)))
      ensures topicType != 0 && (root == null || clientType !in root.clients) ==> r == Fail(NullReference)
      ensures topicType != 0 && root != null && clientType in root.clients ==>
                var c := root.clients[clientType];
                topicType in c.subscribers &&
                var s := c.subscribers[topicType];
                var was := topicType in old(c.subscribers) && old(c.subscribers[topicType].isSubscribing);
                && c.subscribers == old(c.subscribers)[topicType := s]
                && (topicType in old(c.subscribers) ==> s == old(c.subscribers)[topicType])
                && (topicType !in old(c.subscribers) ==>
                      && fresh(s) && s.topicName == cache.GetName(topicType)
                      && s.filter == Some(TopicFilter(cache.GetName(topicType))))
                && s.isSubscribing == was
                && c.conn.log == old(c.conn.log) + (if was then [] else [UnsubscribeRequest(topicType, s.filter)])
                && r == (if !was && fails then Fail(TransportFailure) else Pass)
    {
      var s := GetOrAddSubscribeTopic(clientType, topicType);
      if s.Failure? {
        return Fail(s.error);
      }
      if s.value.None? {
        return Fail(NullReference);
      }
      var c := root.clients[clientType];
      assert c.Valid() && topicType in c.subscribers;
      r := s.value.value.Unsubscribe(fails);
    }

    /** Drops the factory, the topic cache and the root. */
    method Destroy()
      modifies this
      ensures root == null && cache == null && !hasFactory
      ensures Valid()
    {
      hasFactory := false;
      cache := null;
      root := null;
    }
  }

  /**
   * The start of a session: topic 42 is registered as "sensors/temp", client 1
   * is created, and the topic is subscribed twice through the facade. Only the
   * first Subscribe sends a request.
   */
  method OpenSession() returns (net: MqttNet, c: ClientComponent)
    ensures fresh(net) && fresh(net.root) && net.Valid()
    ensures net.root != null && 1 in net.root.clients && net.root.clients[1] == c
    ensures fresh(c) && fresh(c.conn)
    ensures c.subscribers.Keys == {42} && fresh(c.subscribers[42]) && c.subscribers[42].isSubscribing
    ensures c.conn.log == [SubscribeRequest(42, Some(TopicFilter(Some("sensors/temp"))))]
  {
    var root := new Root();
    net := new MqttNet.Awake(root);
    net.cache.SetCache(42, "sensors/temp");
    assert net.cache.GetName(42) == Some("sensors/temp");
    var client := net.GetOrAddMqttClient(1);
    c := client.value;
    assert c.conn.log == [] && c.subscribers == map[];
    var first := net.Subscribe(1, 42, false);
    assert 42 in c.subscribers && c.subscribers[42].isSubscribing;
    ghost var request := SubscribeRequest(42, Some(TopicFilter(Some("sensors/temp"))));
    assert c.conn.log == [request];
    var second := net.Subscribe(1, 42, false);
  }

  /**
   * A whole session: after OpenSession, an as-written Unsubscribe and a lost
   * connection leave the subscription in place, and no request goes out
   * beyond the single subscribe.
   */
  method SubscribeSession() returns (log: seq<Request>, subscribed: bool, disconnect: Outcome<Error>)
    ensures log == [SubscribeRequest(42, Some(TopicFilter(Some("sensors/temp"))))]
    ensures subscribed
    ensures disconnect == Pass
  {
    var net, c := OpenSession();
    var unsub := net.Unsubscribe(1, 42, false);
    assert c.subscribers[42].isSubscribing;
    assert c.IdleFilters() == map[];
    ghost var order;
    disconnect, order := c.OnDisconnected({42});
    FanOutRequestsShape(order, map[]);
    log := c.conn.log;
    subscribed := c.subscribers[42].isSubscribing;
  }
}
