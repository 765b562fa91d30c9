/**
 * One topic subscription attached to a client (Runtime/Components/MqttSubscribeComponent.cs):
 * a single boolean `IsSubscribing` changed by Subscribe, Unsubscribe and OnRecycle.
 * Network requests are appended to the log of the client's connection.
 */
module Subscriptions {
  import opened Wrappers
  import opened Errors
  import TopicCaches

  /** The MqttTopicFilter built once in Awake; only its Topic matters here. */
  datatype TopicFilter = TopicFilter(topic: Option<string>)

  /** A request handed to the MQTT library. */
  datatype Request =
    | SubscribeRequest(topicType: int, filter: Option<TopicFilter>)
    | UnsubscribeRequest(topicType: int, filter: Option<TopicFilter>)

  /** The library's client object, reduced to the requests made through it. */
  class Connection {
    var log: seq<Request>

    constructor ()
      ensures log == []
    {
      log := [];
    }
  }

  /** A call on a subscription; `fails` says whether its network request throws. */
  datatype Call = SubscribeCall(fails: bool) | UnsubscribeCall(fails: bool) | RecycleCall

  /** IsSubscribing after one call, as the component is written. */
  function Next(subscribing: bool, call: Call): bool
  {
    match call
    case SubscribeCall(fails) => if subscribing then subscribing else !fails
    // the guard returns early when IsSubscribing is true
    case UnsubscribeCall(_) => if subscribing then subscribing else false
    case RecycleCall => false
  }

  /** Whether the call sends a request to the broker. */
  predicate Issues(subscribing: bool, call: Call)
  {
    match call
    case SubscribeCall(_) => !subscribing
    case UnsubscribeCall(_) => !subscribing
    case RecycleCall => false
  }

  /** IsSubscribing after a sequence of calls. */
  function Final(subscribing: bool, calls: seq<Call>): bool
    decreases |calls|
  {
    if calls == [] then subscribing else Final(Next(subscribing, calls[0]), calls[1..])
  }

  /** Number of network requests a sequence of calls issues. */
  function RequestCount(subscribing: bool, calls: seq<Call>): nat
    decreases |calls|
  {
    if calls == [] then 0
    else (if Issues(subscribing, calls[0]) then 1 else 0)
         + RequestCount(Next(subscribing, calls[0]), calls[1..])
  }

  /**
   * Once subscribed, no call but OnRecycle brings IsSubscribing back to false,
   * and no call issues a request.
   */
  lemma {:induction false} OnlyRecycleClears(calls: seq<Call>)
    requires forall i :: 0 <= i < |calls| ==> calls[i] != RecycleCall
    ensures Final(true, calls)
    ensures RequestCount(true, calls) == 0
  {
    if calls != [] {
      OnlyRecycleClears(calls[1..]);
    }
  }

  /**
   * Any run of Unsubscribe calls leaves IsSubscribing as it was; from the
   * unsubscribed state each of them still sends a request.
   */
  lemma {:induction false} UnsubscribesChangeNothing(subscribing: bool, calls: seq<Call>)
    requires forall i :: 0 <= i < |calls| ==> calls[i].UnsubscribeCall?
    ensures Final(subscribing, calls) == subscribing
    ensures RequestCount(subscribing, calls) == if subscribing then 0 else |calls|
  {
    if calls != [] {
      UnsubscribesChangeNothing(subscribing, calls[1..]);
    }
  }

  /** Two Subscribe calls in a row, the first succeeding, send at most one request. */
  lemma SubscribeTwiceIssuesOnce(subscribing: bool, fails: bool)
    ensures Final(subscribing, [SubscribeCall(false), SubscribeCall(fails)])
    ensures RequestCount(subscribing, [SubscribeCall(false), SubscribeCall(fails)]) ==
              if subscribing then 0 else 1
  {
    var calls := [SubscribeCall(false), SubscribeCall(fails)];
    assert calls[1..] == [SubscribeCall(fails)];
    assert RequestCount(true, [SubscribeCall(fails)]) == 0 by {
      assert [SubscribeCall(fails)][1..] == [];
    }
  }

  /** A failed Subscribe leaves the component unsubscribed, so the next one retries. */
  lemma FailedSubscribeRetries(fails: bool)
    ensures !Final(false, [SubscribeCall(true)])
    ensures RequestCount(false, [SubscribeCall(true), SubscribeCall(fails)]) == 2
  {
    var calls := [SubscribeCall(true), SubscribeCall(fails)];
    assert calls[1..] == [SubscribeCall(fails)];
    assert RequestCount(false, [SubscribeCall(fails)]) == 1 by {
      assert [SubscribeCall(fails)][1..] == [];
    }
  }

  /**
   * IsSubscribing after Unsubscribe with the guard flipped to return when not
   * subscribing, which is what the reset to false after the request implies.
   */
  function NextFixed(subscribing: bool, call: Call): bool
  {
    match call
    case UnsubscribeCall(fails) => if !subscribing then subscribing else fails
    case _ => Next(subscribing, call)
  }

  /** Whether the corrected Unsubscribe sends a request. */
  predicate IssuesFixed(subscribing: bool, call: Call)
  {
    match call
    case UnsubscribeCall(_) => subscribing
    case _ => Issues(subscribing, call)
  }

  /**
   * With the corrected guard, a successful Unsubscribe ends unsubscribed from
   * either state, and one on an unsubscribed topic sends nothing.
   */
  lemma FixedUnsubscribeClears(subscribing: bool, fails: bool)
    ensures !NextFixed(subscribing, UnsubscribeCall(false))
    ensures !IssuesFixed(false, UnsubscribeCall(fails))
    ensures IssuesFixed(true, UnsubscribeCall(fails))
  {
  }

  class SubscribeComponent {
    const id: int
    const conn: Connection
    var topicName: Option<string>
    var filter: Option<TopicFilter>
    var isSubscribing: bool

    /** AddComponentWithId followed by Awake: the name comes from the topic cache. */
    constructor (id: int, conn: Connection, cache: TopicCaches.TopicCache)
      ensures this.id == id && this.conn == conn
      ensures topicName == cache.GetName(id)
      ensures filter == Some(TopicFilter(topicName))
      ensures !isSubscribing
    {
      this.id := id;
      this.conn := conn;
      topicName := cache.GetName(id);
      filter := Some(TopicFilter(cache.GetName(id)));
      isSubscribing := false;
    }

    method Subscribe(fails: bool) returns (r: Outcome<Error>)
      modifies this`isSubscribing, conn`log
      ensures isSubscribing == Next(old(isSubscribing), SubscribeCall(fails))
      ensures old(isSubscribing) ==> isSubscribing && conn.log == old(conn.log) && r == Pass
      ensures !old(isSubscribing) ==>
                && conn.log == old(conn.log) + [SubscribeRequest(id, filter)]
                && isSubscribing == !fails
                && r == (if fails then Fail(TransportFailure) else Pass)
    {
      if isSubscribing {
        return Pass;
      }
      conn.log := conn.log + [SubscribeRequest(id, filter)];
      if fails {
        return Fail(TransportFailure);
      }
      isSubscribing := true;
      r := Pass;
    }

    /** Unsubscribe as written: it returns early when IsSubscribing is true. */
    method Unsubscribe(fails: bool) returns (r: Outcome<Error>)
      modifies this`isSubscribing, conn`log
      ensures isSubscribing == Next(old(isSubscribing), UnsubscribeCall(fails))
      ensures isSubscribing == old(isSubscribing)
      ensures old(isSubscribing) ==> conn.log == old(conn.log) && r == Pass
      ensures !old(isSubscribing) ==>
                && conn.log == old(conn.log) + [UnsubscribeRequest(id, filter)]
                && r == (if fails then Fail(TransportFailure) else Pass)
    {
      if isSubscribing {
        return Pass;
      }
      conn.log := conn.log + [UnsubscribeRequest(id, filter)];
      if fails {
        return Fail(TransportFailure);
      }
      isSubscribing := false;
      r := Pass;
    }

    /** Unsubscribe with the guard inverted back: a no-op when not subscribed. */
    method UnsubscribeFixed(fails: bool) returns (r: Outcome<Error>)
      modifies this`isSubscribing, conn`log
      ensures isSubscribing == NextFixed(old(isSubscribing), UnsubscribeCall(fails))
      ensures !old(isSubscribing) ==> !isSubscribing && conn.log == old(conn.log) && r == Pass
      ensures old(isSubscribing) ==>
                && conn.log == old(conn.log) + [UnsubscribeRequest(id, filter)]
                && isSubscribing == fails
                && r == (if fails then Fail(TransportFailure) else Pass)
    {
      if !isSubscribing {
        return Pass;
      }
      conn.log := conn.log + [UnsubscribeRequest(id, filter)];
      if fails {
        return Fail(TransportFailure);
      }
      isSubscribing := false;
      r := Pass;
    }

    method OnRecycle()
      modifies this`topicName, this`filter, this`isSubscribing
      ensures isSubscribing == Next(old(isSubscribing), RecycleCall)
      ensures topicName == None && filter == None && !isSubscribing
    {
      topicName := None;
      isSubscribing := false;
      filter := None;
    }
  }
}
