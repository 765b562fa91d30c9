# MQTT component wrapper: a verified model

This project models the logic of its own that an MQTT client wrapper carries. The wrapper attaches an MQTT client, topic
subscriptions and topic publishers to entities of a host entity/component framework. Everything on the wire
(connect, subscribe, publish, ping) belongs to an external MQTT library. The model keeps three small pieces:

- **Topic cache** (`TopicCaches`): a table between integer topic types and topic names. It is a class with
  two maps, filled by two independent `TryAdd` calls.
- **Subscription state machine** (`Subscriptions`): one subscription child with its `IsSubscribing` flag,
  its topic name and its filter. Requests to the broker are appended to the log of the client's connection
  object. Whether a request throws is a parameter (`fails`). The client's disconnected handler
  (`Clients.ClientComponent.OnDisconnected`) applies `Unsubscribe` to every subscription child.
- **Component registry** (`MqttHelper`, `Net`): the root's clients keyed by client type. Each client has
  subscription children keyed by topic type and publisher children in insertion order. The model covers
  zero-type rejection, get-or-add, find-first-by-topic and the null results. Exceptions and null dereferences
  are returned as `Fail`/`Failure` values (`Errors.Error`); a C# null is `None`.

Modules follow the source files: `wrappers.dfy` (Option/Result/Outcome and the error values),
`topic_cache.dfy`, `subscriptions.dfy`, `clients.dfy`, `mqtt_helper.dfy`, `mqtt_net.dfy`.

## Behaviour the code shows

The model follows the code as written. Three behaviours of the code are worth stating up front:

- Registering a topic (Runtime/MqttTopicCache.cs:17-21) adds each direction with its own `TryAdd`. When
  only one of the two keys is already present, the other direction is still added, and the two maps
  disagree (see Findings).
- `Unsubscribe` (Runtime/Components/MqttSubscribeComponent.cs:36-48) returns early when `IsSubscribing` is
  true. When calls on one component do not overlap, line 46 then resets `IsSubscribing` to false, which can
  only ever overwrite a false. The guard is
  evidently meant to be `!IsSubscribing` (see Findings). There is no `finally` step: a failing request
  leaves the state as it was.
- The disconnected handler (Runtime/Components/MqttClientComponent.cs:66-75) calls `Unsubscribe` on every
  subscription child. Because of the guard above, subscribed children stay subscribed, and a request is sent
  for each child that is not subscribed (`Clients.FanOutRequestsShape`).

## Model

| member | source | states |
|---|---|---|
| `TopicCaches.TryAdd` | Runtime/MqttTopicCache.cs:19-20 | Dictionary.TryAdd: the key set grows by exactly the new key, no existing entry changes, and the value is stored only when the key was absent |
| `TopicCaches.TopicCache.constructor` | Runtime/MqttTopicCache.cs:11-15 | a new cache has two empty maps, which are trivially consistent |
| `TopicCaches.TopicCache.SetCache` | Runtime/MqttTopicCache.cs:17-21 | each map is updated by its own TryAdd. With both keys fresh, Get(t) == n and Get(n) == t. An id already present keeps its name, and a name already present keeps its type. Calls with fresh keys keep the maps exact inverses |
| `TopicCaches.TopicCache.SetCachePaired` | Runtime/MqttTopicCache.cs:17-21 | corrected registration: adds the pair only when both keys are fresh, otherwise changes nothing, and always preserves consistency |
| `TopicCaches.FreshRegistrationsStayInverse` | Runtime/MqttTopicCache.cs:17-21 | after SetCache is called in turn with pairs whose ids and names are fresh and pairwise distinct, the maps are still exact inverses and every pair round-trips in both directions |
| `TopicCaches.SetAllKeepsType` | Runtime/MqttTopicCache.cs:19 | later SetCache calls never change the name of an id that is already registered, whatever the name map holds |
| `TopicCaches.SetAllKeepsName` | Runtime/MqttTopicCache.cs:20 | later SetCache calls never change the type of a name that is already registered, whatever the id map holds |
| `TopicCaches.TopicCache.GetName` | Runtime/MqttTopicCache.cs:23-26 | Get(int): the registered name when the id is present, and null exactly when it is absent |
| `TopicCaches.TopicCache.GetType` | Runtime/MqttTopicCache.cs:28-31 | Get(string): the registered type when the name is present, and 0 when it is absent |
| `TopicCaches.LookupRoundTrip` | Runtime/MqttTopicCache.cs:23-31 | on a consistent cache, Get(Get(t)) == t for every registered id and Get(Get(n)) == n for every registered name |
| `TopicCaches.MissReturnsDefault` | Runtime/MqttTopicCache.cs:23-31 | a lookup miss returns null for an id and 0 for a name |
| `TopicCaches.DriftWhenTypeTaken` | Runtime/MqttTopicCache.cs:19-20 | with the id taken by another name and the name free, the name is still mapped to the id while the id keeps its old name |
| `TopicCaches.DriftWhenNameTaken` | Runtime/MqttTopicCache.cs:19-20 | with the name taken by another id and the id free, the id is still mapped to the name while the name keeps its old type |
| `TopicCaches.DriftExample` | Runtime/MqttTopicCache.cs:17-31 | SetCache(1,"a"); SetCache(1,"b") gives Get("b") == 1 and Get(1) == "a", so Get(Get("b")) != "b" |
| `Subscriptions.Connection.constructor` | Runtime/Components/MqttClientComponent.cs:32 | the library client created for a client component has sent no requests yet |
| `Subscriptions.SubscribeComponent.constructor` | Runtime/Components/MqttSubscribeComponent.cs:15-20 | after Awake, TopicName is the cache's name for the component's id, the filter carries that name, and IsSubscribing is false |
| `Subscriptions.SubscribeComponent.Subscribe` | Runtime/Components/MqttSubscribeComponent.cs:22-34 | when subscribed, sends nothing and changes nothing. Otherwise it sends exactly one subscribe request with the filter, becomes subscribed when the request succeeds, and stays unsubscribed and reports the failure when it throws |
| `Subscriptions.SubscribeComponent.Unsubscribe` | Runtime/Components/MqttSubscribeComponent.cs:36-48 | as written: when subscribed it is a no-op. When not subscribed it sends one unsubscribe request and stays unsubscribed. It never changes IsSubscribing |
| `Subscriptions.SubscribeComponent.UnsubscribeFixed` | Runtime/Components/MqttSubscribeComponent.cs:36-48 | corrected guard: a no-op when not subscribed. When subscribed it sends one request and ends unsubscribed unless the request throws |
| `Subscriptions.SubscribeComponent.OnRecycle` | Runtime/Components/MqttSubscribeComponent.cs:53-59 | IsSubscribing becomes false, and TopicName and the filter become null |
| `Subscriptions.OnlyRecycleClears` | Runtime/Components/MqttSubscribeComponent.cs:22-58 | from the subscribed state, any sequence of Subscribe/Unsubscribe calls without OnRecycle ends subscribed and sends no request |
| `Subscriptions.UnsubscribesChangeNothing` | Runtime/Components/MqttSubscribeComponent.cs:36-48 | any run of Unsubscribe calls leaves IsSubscribing unchanged. From subscribed it sends no request; from unsubscribed each call sends one |
| `Subscriptions.SubscribeTwiceIssuesOnce` | Runtime/Components/MqttSubscribeComponent.cs:22-34 | two Subscribe calls in a row, the first succeeding, end subscribed and send exactly one request (none if already subscribed) |
| `Subscriptions.FailedSubscribeRetries` | Runtime/Components/MqttSubscribeComponent.cs:29-32 | a Subscribe whose request throws leaves the state unsubscribed, so the next Subscribe sends a second request |
| `Subscriptions.FixedUnsubscribeClears` | Runtime/Components/MqttSubscribeComponent.cs:38-41 | with the corrected guard, a successful Unsubscribe ends unsubscribed from either state. It sends a request only when subscribed |
| `Clients.PublishComponent.constructor` | Runtime/Components/MqttPublishComponent.cs:13-17 | a publisher keeps the topic it was created with |
| `Clients.ClientComponent.constructor` | Runtime/Components/MqttClientComponent.cs:29-38 | a new client has a fresh connection with an empty log and no subscription or publisher children |
| `Clients.ClientComponent.OnDisconnected` | Runtime/Components/MqttClientComponent.cs:66-75 | visits every subscription child once, in some order, and applies Unsubscribe. No child's state changes. The log grows by the fan-out requests for that order. The handler fails exactly when some child that is not subscribing had its request throw |
| `Clients.FanOutRequestsShape` | Runtime/Components/MqttClientComponent.cs:69-73 | the fan-out sends exactly one unsubscribe request, with its own filter, for each child that is not subscribing, and none for subscribed children |
| `Clients.FanOutAppend` | Runtime/Components/MqttClientComponent.cs:72 | visiting one more child appends at most that child's request to the fan-out |
| `MqttHelper.GetOrAddSubscribeTopic` | Runtime/MqttHelper.cs:9-16 | rejects topic type 0 without touching the children. It returns the existing child for the id unchanged, or adds exactly one fresh, unsubscribed child named from the cache |
| `MqttHelper.AcceptedCount` | Runtime/MqttHelper.cs:20-27 | the length of the run of non-zero topic types before the first 0 (or the whole list) |
| `MqttHelper.AddSubscribeTopics` | Runtime/MqttHelper.cs:18-28 | adds a fresh, unsubscribed child for each topic type before the first 0, with the name and filter Awake gives it from the cache. It keeps existing children, and fails exactly when a 0 is reached |
| `MqttHelper.FindPublisher` | Runtime/MqttHelper.cs:32-39 | returns the index of the first publisher whose topic equals the argument, or none when no publisher has it |
| `MqttHelper.GetOrAddPublishTopic` | Runtime/MqttHelper.cs:30-41 | when some publisher has the topic, returns the first such publisher already in the list and leaves the list unchanged. Otherwise appends exactly one fresh publisher with that topic and returns it. The count grows by at most one |
| `MqttHelper.Subscribe` | Runtime/MqttHelper.cs:43-50 | rejects 0, sending nothing and leaving any child under 0 unchanged. A missing child is a null dereference; nothing is ever created. Otherwise it is the child's Subscribe: only that child's IsSubscribing and the connection's log may change, and its name and filter stay |
| `MqttHelper.Unsubscribe` | Runtime/MqttHelper.cs:52-59 | rejects 0, sending nothing and leaving any child under 0 unchanged. A missing child is a null dereference; nothing is ever created. Otherwise it is the child's as-written Unsubscribe, which leaves its state, name and filter unchanged |
| `Net.MqttNet.Awake` | Runtime/MqttNet.cs:17-22 | holds the factory, a fresh empty topic cache and the root |
| `Net.MqttNet.GetOrAddMqttClient` | Runtime/MqttNet.cs:24-31 | rejects 0. Returns the registered client unchanged, or registers exactly one fresh client with no children and its own new library client with no requests sent |
| `Net.MqttNet.GetMqttClient` | Runtime/MqttNet.cs:33-40 | rejects 0. Returns the registered client or null, and never adds one |
| `Net.MqttNet.GetOrAddSubscribeTopic` | Runtime/MqttNet.cs:42-54 | rejects topic type 0 first, with the children unchanged. Returns null and creates nothing when the client is absent, and does not check the client type. Otherwise it returns the existing child with the children unchanged, or adds exactly one fresh, unsubscribed child named from the cache. Only the target client's subscription map may change |
| `Net.MqttNet.GetOrAddPublishTopic` | Runtime/MqttNet.cs:56-64 | null when the client is absent. Otherwise it returns the first publisher with the topic and leaves the list unchanged, or appends exactly one fresh publisher. There is no check on the topic. Only the target client's publisher list may change |
| `Net.MqttNet.AddSubscribeTopics` | Runtime/MqttNet.cs:66-69 | a no-op when the client is absent. Otherwise it adds a fresh, unsubscribed child for each topic type before the first 0, with its name and filter from the cache. It keeps every existing child, and fails exactly when a 0 is reached. Only the target client's subscription map may change |
| `Net.MqttNet.Subscribe` | Runtime/MqttNet.cs:71-74 | rejects topic type 0 with the client, its connection and its children unchanged. A missing client is a null dereference. Otherwise it reuses the child under the topic type, or adds one named from the cache with that name's filter, then applies Subscribe to it. Only the map entry for that topic type, that child's IsSubscribing and the connection's log may change |
| `Net.MqttNet.Unsubscribe` | Runtime/MqttNet.cs:76-79 | rejects topic type 0 with the client, its connection and its children unchanged. A missing client is a null dereference. Otherwise it reuses the child, or adds one named from the cache with that name's filter, then applies the as-written Unsubscribe. The child's state never changes, and a request is sent only when it is not subscribing |
| `Net.MqttNet.Destroy` | Runtime/MqttNet.cs:91-97 | clears the factory, the topic cache and the root reference |
| `Net.OpenSession` | Runtime/MqttNet.cs:24-74 | after registering topic 42 in the cache, creating client 1 and subscribing the topic twice through the facade, the client's only child is subscribed and exactly one subscribe request, carrying the cached name, has been sent |
| `Net.SubscribeSession` | Runtime/MqttNet.cs:76-79 | after that, an Unsubscribe through the facade and a lost connection leave the topic subscribed, the disconnect handler succeeds, and still only the one subscribe request has been sent |

## Left out

- Every call into the MQTT library is left out: `ConnectAsync`, `SubscribeAsync`, `UnsubscribeAsync`, `PublishAsync`, `TryPingAsync`, `DisconnectAsync` and the option, filter and message builders. Subscribe and unsubscribe requests are appended to `Connection.log`, and whether one throws is a parameter.
- The reconnect loop (Runtime/Components/MqttClientComponent.cs:101-128) is a fire-and-forget background task, which is concurrency. As written, the rethrow at line 124 ends the loop at the first exception.
- The client's `Connect` overloads, event-handler registration and removal, NLog logging and `Destroy` are connection and lifecycle plumbing with no state this model tracks.
- The client component's `OnRecycle` (Runtime/Components/MqttClientComponent.cs:148-155) is left out. It sets `_mqttClient` to null, but the model's `ClientComponent.conn` is a constant that never becomes null. Calls on the children of a recycled client, which would be null dereferences at Runtime/Components/MqttSubscribeComponent.cs:31 and :45, are not represented.
- The message-received handler (Runtime/Components/MqttClientComponent.cs:89-99) is left out. It resolves the topic through the cache's `Get(string)`, which `TopicCaches.MissReturnsDefault` covers. The packet constructor it calls is not part of this model.
- Publishing (`MqttPublishComponent.PublishAsync`, `MqttNet.PublishAsync`) is only a forward to the library; the publisher keeps just its topic.
- `MqttReceivePacket` is a property holder with no behaviour.
- The host framework's component tree is left out. It is a map of clients on the root, a map of subscription children per client and a sequence of publishers per client. The order in which `GetComponents` lists subscription children is left open: the fan-out returns the order it used.
- `MqttHelper.AddSubscribeTopics`: requires the accepted topic types to be absent and pairwise distinct, because what `AddComponentWithId` does with an id already present is not known.
- `Net.MqttNet.AddSubscribeTopics`: carries the same requirement for a present client.
- Null strings are left out. A null name passed to `SetCache` would add `id -> null` and then throw from the second `TryAdd`. A null publisher topic would make later topic comparisons throw. Names and topics in the model are non-null strings.
- `Task` and `async` are left out. A thrown exception, including one surfacing from an awaited task, is a returned `Fail`/`Failure`. The concurrent unsubscribes under `Task.WhenAll` are applied one after another in an unspecified order.
- Calls on one subscription component are modelled as atomic. `Subscribe` and `Unsubscribe` suspend at their awaits (Runtime/Components/MqttSubscribeComponent.cs:31 and :45), so overlapping calls can interleave. For example, an `Unsubscribe` that passes its guard while a `Subscribe` is awaiting can overwrite the `true` from line 32 with the `false` from line 46 and leave the component unsubscribed. `Subscriptions.OnlyRecycleClears` and the other trace lemmas hold for sequential calls only.
- The `MqttNet.Instance` singleton wiring is left out; the topic cache is passed where the source reads it through the singleton.
- The host's `GetComponents<T>()` is assumed to return an empty collection when a client has no children of that kind. The disconnected handler guards against null (Runtime/Components/MqttClientComponent.cs:70), but `MqttHelper.GetOrAddPublishTopic` does not (Runtime/MqttHelper.cs:32-33). If the host returned null there, the `foreach` would throw and no client could get its first publisher. The model has no null collection.

## Findings

| source | as written | input that shows it | evidently intended | confidence | as-written member | corrected member |
|---|---|---|---|---|---|---|
| Runtime/Components/MqttSubscribeComponent.cs:38-41 | `Unsubscribe` returns early when `IsSubscribing` is true | Subscribe() succeeds, then Unsubscribe(): no request is sent and the state stays subscribed. Unsubscribe() on a never-subscribed topic sends a request | return early when not subscribing | high; not executed | `Subscriptions.UnsubscribesChangeNothing` | `Subscriptions.SubscribeComponent.UnsubscribeFixed` |
| Runtime/MqttTopicCache.cs:17-21 | the two directions are added by independent `TryAdd` calls | SetCache(1, "a"); SetCache(1, "b") gives Get("b") == 1 but Get(1) == "a". SetCache(1, "a"); SetCache(2, "a") gives Get(2) == "a" but Get("a") == 1 | register the pair only when neither key is present | medium; not executed | `TopicCaches.DriftExample` | `TopicCaches.TopicCache.SetCachePaired` |

The corrected members stand beside the as-written ones. The facade, the helper and the disconnect handler keep
the as-written `Unsubscribe` and `SetCache`, so that what the code does stays visible in their contracts.
