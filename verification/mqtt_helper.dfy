/**
 * The extension methods on a client component (Runtime/MqttHelper.cs): the
 * zero-type checks and the get-or-add lookups in the client's children.
 */
module MqttHelper {
  import opened Wrappers
  import opened Errors
  import opened Subscriptions
  import opened Clients
  import TopicCaches

  /**
   * The subscription child under `topicType`, added when missing; topic type
   * 0 is rejected before the children are looked at.
   */
  method GetOrAddSubscribeTopic(component: ClientComponent, topicType: int, cache: TopicCaches.TopicCache)
    returns (r: Result<SubscribeComponent, Error>)
    requires component.Valid()
    modifies component`subscribers
    ensures component.Valid()
    ensures topicType == 0 ==>
              r == Failure(ZeroTypeRejected) && component.subscribers == old(component.subscribers)
    ensures topicType != 0 && topicType in old(component.subscribers) ==>
              r == Success(old(component.subscribers)[topicType])
              && component.subscribers == old(component.subscribers)
    ensures topicType != 0 && topicType !in old(component.subscribers) ==>
              && r.Success? && fresh(r.value)
              && component.subscribers == old(component.subscribers)[topicType := r.value]
              && r.value.topicName == cache.GetName(topicType)
              && r.value.filter == Some(TopicFilter(r.value.topicName))
              && !r.value.isSubscribing
  {
    if topicType == 0 {
      return Failure(ZeroTypeRejected);
    }
    if topicType in component.subscribers {
      return Success(component.subscribers[topicType]);
    }
    var s := new SubscribeComponent(topicType, component.conn, cache);
    component.subscribers := component.subscribers[topicType := s];
    r := Success(s);
  }

  /**
   * Index of the first non-zero prefix of `topicTypes`: the foreach in
   * AddSubscribeTopics adds a child for each of these and throws at the 0
   * that follows, if any.
   */
  function AcceptedCount(topicTypes: seq<int>): (k: nat)
    ensures k <= |topicTypes|
    ensures forall i :: 0 <= i < k ==> topicTypes[i] != 0
    ensures k < |topicTypes| ==> topicTypes[k] == 0
  {
    if topicTypes == [] || topicTypes[0] == 0 then 0
    else 1 + AcceptedCount(topicTypes[1..])
  }

  /**
   * Adds a subscription child for each topic type in order, throwing at the
   * first 0; the children added before it stay. AddComponentWithId's
   * behaviour on an id already present is not known, so the accepted topic
   * types must be new and pairwise distinct.
   */
  method AddSubscribeTopics(component: ClientComponent, topicTypes: seq<int>, cache: TopicCaches.TopicCache)
    returns (r: Outcome<Error>)
    requires component.Valid()
    requires forall i :: 0 <= i < AcceptedCount(topicTypes) ==> topicTypes[i] !in component.subscribers
    requires forall i, j :: 0 <= i < j < AcceptedCount(topicTypes) ==> topicTypes[i] != topicTypes[j]
    modifies component`subscribers
    ensures component.Valid()
    ensures r == if AcceptedCount(topicTypes) < |topicTypes| then Fail(ZeroTypeRejected) else Pass
    ensures component.subscribers.Keys ==
              old(component.subscribers).Keys + (set i | 0 <= i < AcceptedCount(topicTypes) :: topicTypes[i])
    ensures forall k :: k in old(component.subscribers) ==>
              component.subscribers[k] == old(component.subscribers)[k]
    ensures forall i :: 0 <= i < AcceptedCount(topicTypes) ==>
              && fresh(component.subscribers[topicTypes[i]])
              && component.subscribers[topicTypes[i]].topicName == cache.GetName(topicTypes[i])
              && component.subscribers[topicTypes[i]].filter == Some(TopicFilter(cache.GetName(topicTypes[i])))
              && !component.subscribers[topicTypes[i]].isSubscribing
  {
    ghost var accepted := AcceptedCount(topicTypes);
    var n := 0;
    while n < |topicTypes|
      invariant n <= accepted
      invariant component.Valid()
      invariant component.subscribers.Keys ==
                  old(component.subscribers).Keys + (set i | 0 <= i < n :: topicTypes[i])
      invariant forall k :: k in old(component.subscribers) ==>
                  component.subscribers[k] == old(component.subscribers)[k]
      invariant forall i :: 0 <= i < n ==>
                  && fresh(component.subscribers[topicTypes[i]])
                  && component.subscribers[topicTypes[i]].topicName == cache.GetName(topicTypes[i])
                  && component.subscribers[topicTypes[i]].filter == Some(TopicFilter(cache.GetName(topicTypes[i])))
                  && !component.subscribers[topicTypes[i]].isSubscribing
    {
      if topicTypes[n] == 0 {
        return Fail(ZeroTypeRejected);
      }
      var s := new SubscribeComponent(topicTypes[n], component.conn, cache);
      component.subscribers := component.subscribers[topicTypes[n] := s];
      assert (set i | 0 <= i < n + 1 :: topicTypes[i]) == (set i | 0 <= i < n :: topicTypes[i]) + {topicTypes[n]};
      n := n + 1;
    }
    r := Pass;
  }

  /** The foreach over the publisher children: the first one whose Topic equals `topic`. */
  method FindPublisher(publishers: seq<PublishComponent>, topic: string) returns (r: Option<nat>)
    ensures r.Some? ==>
              && r.value < |publishers|
              && publishers[r.value].topic == topic
              && forall j :: 0 <= j < r.value ==> publishers[j].topic != topic
    ensures r.None? ==> forall j :: 0 <= j < |publishers| ==> publishers[j].topic != topic
  {
    var i := 0;
    while i < |publishers|
      invariant i <= |publishers|
      invariant forall j :: 0 <= j < i ==> publishers[j].topic != topic
    {
      if publishers[i].topic == topic {
        return Some(i);
      }
      i := i + 1;
    }
    r := None;
  }

  /**
   * The first publisher child with this topic, or a new one appended after the
   * existing ones; the count of publishers grows by at most one.
   */
  method GetOrAddPublishTopic(component: ClientComponent, topic: string) returns (p: PublishComponent)
    modifies component`publishers
    ensures p.topic == topic
    ensures (exists j :: 0 <= j < |old(component.publishers)| && old(component.publishers)[j].topic == topic) ==>
              && component.publishers == old(component.publishers)
              && exists j :: 0 <= j < |old(component.publishers)| && old(component.publishers)[j] == p
                             && forall j' :: 0 <= j' < j ==> old(component.publishers)[j'].topic != topic
    ensures (forall j :: 0 <= j < |old(component.publishers)| ==> old(component.publishers)[j].topic != topic) ==>
              fresh(p) && component.publishers == old(component.publishers) + [p]
    ensures |old(component.publishers)| <= |component.publishers| <= |old(component.publishers)| + 1
  {
    var found := FindPublisher(component.publishers, topic);
    if found.Some? {
      return component.publishers[found.value];
    }
    p := new PublishComponent(topic);
    component.publishers := component.publishers + [p];
  }

  /** The subscription child under `topicType`, as a frame: empty when there is none. */
  ghost function Child(component: ClientComponent, topicType: int): set<SubscribeComponent>
    reads component
  {
    if topicType in component.subscribers then {component.subscribers[topicType]} else {}
  }

  /** Subscribe on the existing child under `topicType`; a missing child is a null dereference. */
  method Subscribe(component: ClientComponent, topicType: int, fails: bool) returns (r: Outcome<Error>)
    requires component.Valid()
    modifies component.conn`log, Child(component, topicType)`isSubscribing
    ensures component.subscribers == old(component.subscribers)
    ensures topicType == 0 ==>
              r == Fail(ZeroTypeRejected) && component.conn.log == old(component.conn.log)
              && unchanged(Child(component, topicType))
    ensures topicType != 0 && topicType !in component.subscribers ==>
              r == Fail(NullReference) && component.conn.log == old(component.conn.log)
    ensures topicType != 0 && topicType in component.subscribers ==>
              var s := component.subscribers[topicType];
              && s.isSubscribing == Next(old(s.isSubscribing), SubscribeCall(fails))
              && component.conn.log ==
                   old(component.conn.log) + (if old(s.isSubscribing) then [] else [SubscribeRequest(topicType, s.filter)])
              && r == (if !old(s.isSubscribing) && fails then Fail(TransportFailure) else Pass)
  {
    if topicType == 0 {
      return Fail(ZeroTypeRejected);
    }
    if topicType !in component.subscribers {
      return Fail(NullReference);
    }
    r := component.subscribers[topicType].Subscribe(fails);
  }

  /** Unsubscribe on the existing child under `topicType`; a missing child is a null dereference. */
  method Unsubscribe(component: ClientComponent, topicType: int, fails: bool) returns (r: Outcome<Error>)
    requires component.Valid()
    modifies component.conn`log, Child(component, topicType)`isSubscribing
    ensures component.subscribers == old(component.subscribers)
    ensures topicType == 0 ==>
              r == Fail(ZeroTypeRejected) && component.conn.log == old(component.conn.log)
              && unchanged(Child(component, topicType))
    ensures topicType != 0 && topicType !in component.subscribers ==>
              r == Fail(NullReference) && component.conn.log == old(component.conn.log)
    ensures topicType != 0 && topicType in component.subscribers ==>
              var s := component.subscribers[topicType];
              && s.isSubscribing == old(s.isSubscribing)
              && component.conn.log ==
                   old(component.conn.log) + (if old(s.isSubscribing) then [] else [UnsubscribeRequest(topicType, s.filter)])
              && r == (if !old(s.isSubscribing) && fails then Fail(TransportFailure) else Pass)
  {
    if topicType == 0 {
      return Fail(ZeroTypeRejected);
    }
    if topicType !in component.subscribers {
      return Fail(NullReference);
    }
    r := component.subscribers[topicType].Unsubscribe(fails);
  }
}
