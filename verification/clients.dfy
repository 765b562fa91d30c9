/**
 * The client component (Runtime/Components/MqttClientComponent.cs) as far as
 * this model needs it: its connection, its subscription children keyed by
 * topic type, its publisher children in insertion order, and the fan-out its
 * disconnected handler performs over the subscriptions.
 */
module Clients {
  import opened Wrappers
  import opened Errors
  import opened Subscriptions

  /** A publisher child (Runtime/Components/MqttPublishComponent.cs): only its Topic. */
  class PublishComponent {
    const topic: string

    constructor (topic: string)
      ensures this.topic == topic
    {
      this.topic := topic;
    }
  }

  /** Every non-empty set of topic types has an element. */
  lemma Element(keys: set<int>) returns (k: int)
    requires keys != {}
    ensures k in keys
  {
    if forall x :: x !in keys {
      assert false;
    }
    k :| k in keys;
  }

  /** The topic types in `order` are pairwise distinct. */
  ghost predicate Distinct(order: seq<int>)
  {
    forall i, j :: 0 <= i < j < |order| ==> order[i] != order[j]
  }

  /** No two requests in `rs` are for the same topic type. */
  ghost predicate DistinctTopics(rs: seq<Request>)
  {
    forall i, j :: 0 <= i < j < |rs| ==> rs[i].topicType != rs[j].topicType
  }

  /**
   * The unsubscribe requests the disconnect fan-out sends when it visits the
   * children in `order`; `idle` maps the topic type of every child that is
   * not subscribing to its filter.
   */
  function FanOutRequests(order: seq<int>, idle: map<int, Option<TopicFilter>>): seq<Request>
    decreases |order|
  {
    if order == [] then []
    else FanOutRequests(order[..|order| - 1], idle)
         + (var k := order[|order| - 1]; if k in idle then [UnsubscribeRequest(k, idle[k])] else [])
  }

  /**
   * Visiting the children once each sends exactly one unsubscribe request per
   * child that is not subscribing, with its own filter, and none for the others.
   */
  lemma {:induction false} FanOutRequestsShape(order: seq<int>, idle: map<int, Option<TopicFilter>>)
    requires Distinct(order)
    ensures forall r :: r in FanOutRequests(order, idle) ==>
              && r.UnsubscribeRequest?
              && r.topicType in order && r.topicType in idle
              && r.filter == idle[r.topicType]
    ensures forall k :: k in order && k in idle ==>
              exists r :: r in FanOutRequests(order, idle) && r.topicType == k
    ensures DistinctTopics(FanOutRequests(order, idle))
  {
    if order != [] {
      var prefix := order[..|order| - 1];
      var k := order[|order| - 1];
      assert Distinct(prefix);
      FanOutRequestsShape(prefix, idle);
      assert k !in prefix;
      var rs := FanOutRequests(order, idle);
      var ps := FanOutRequests(prefix, idle);
      assert forall k' :: k' in order ==> k' in prefix || k' == k;
      assert forall k' :: k' in prefix ==> k' in order;
      if k in idle {
        assert rs == ps + [UnsubscribeRequest(k, idle[k])];
        assert UnsubscribeRequest(k, idle[k]) in rs;
        assert forall i :: 0 <= i < |ps| ==> rs[i] == ps[i];
        forall i | 0 <= i < |ps| ensures ps[i].topicType != k {
          assert ps[i] in ps;
        }
      } else {
        assert rs == ps;
        assert DistinctTopics(ps);
      }
    }
  }

  lemma FanOutAppend(order: seq<int>, k: int, idle: map<int, Option<TopicFilter>>)
    ensures FanOutRequests(order + [k], idle) ==
              FanOutRequests(order, idle) + if k in idle then [UnsubscribeRequest(k, idle[k])] else []
  {
    assert (order + [k])[..|order|] == order;
  }

  class ClientComponent {
    const id: int
    const conn: Connection
    var subscribers: map<int, SubscribeComponent>
    var publishers: seq<PublishComponent>

    /** Each subscription child sits under its own topic type and talks through this client's connection. */
    ghost predicate Valid()
      reads this
    {
      forall k :: k in subscribers ==> subscribers[k].id == k && subscribers[k].conn == conn
    }

    /** The filters of the subscription children that are not subscribing, by topic type. */
    ghost function IdleFilters(): map<int, Option<TopicFilter>>
      reads this, subscribers.Values
    {
      map k | k in subscribers && !subscribers[k].isSubscribing :: subscribers[k].filter
    }

    /** AddComponentWithId followed by Awake: a fresh library client and no children. */
    constructor (id: int)
      ensures Valid()
      ensures this.id == id && fresh(conn) && conn.log == []
      ensures subscribers == map[] && publishers == []
    {
      this.id := id;
      conn := new Connection();
      subscribers := map[];
      publishers := [];
    }

    /**
     * The disconnected handler: Unsubscribe on every subscription child, in an
     * order the host framework chooses (returned as `order`); `failing` holds
     * the topic types whose unsubscribe request throws, and Task.WhenAll
     * reports a failure if any did.
     */
    method OnDisconnected(failing: set<int>) returns (r: Outcome<Error>, ghost order: seq<int>)
      requires Valid()
      modifies conn`log, subscribers.Values`isSubscribing
      ensures forall k :: k in subscribers ==>
                && subscribers[k].isSubscribing == old(subscribers[k].isSubscribing)
                && subscribers[k].topicName == old(subscribers[k].topicName)
                && subscribers[k].filter == old(subscribers[k].filter)
      ensures Distinct(order) && forall k :: k in order <==> k in subscribers
      ensures conn.log == old(conn.log) + FanOutRequests(order, old(IdleFilters()))
      ensures r.Fail? <==> exists k :: k in failing && k in old(IdleFilters())
    {
      ghost var idle := IdleFilters();
      var todo: set<int> := subscribers.Keys;
      r := Pass;
      order := [];
      while todo != {}
        invariant todo <= subscribers.Keys
        invariant forall k :: k in subscribers ==>
                    subscribers[k].isSubscribing == old(subscribers[k].isSubscribing)
        invariant Distinct(order)
        invariant forall k :: k in order <==> k in subscribers && k !in todo
        invariant conn.log == old(conn.log) + FanOutRequests(order, idle)
        invariant r.Fail? <==> exists k :: k in order && k in failing && k in idle
        decreases todo
      {
        // Element supplies a member of todo, so the choice below exists
        ghost var member := Element(todo);
        var k :| k in todo;
        var s := subscribers[k];
        var o := s.Unsubscribe(k in failing);
        if o.Fail? {
          r := o;
        }
        todo := todo - {k};
        FanOutAppend(order, k, idle);
        order := order + [k];
      }
    }
  }
}
