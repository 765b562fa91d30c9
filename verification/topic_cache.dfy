/**
 * The process-wide table between integer topic types and topic-name strings
 * (Runtime/MqttTopicCache.cs). It is two independent dictionaries filled by
 * two independent TryAdd calls, so the two directions can drift apart.
 */
module TopicCaches {
  import opened Wrappers

  /** Dictionary.TryAdd on a map value: adds `k -> v` only when `k` is absent. */
  function TryAdd<K, V>(m: map<K, V>, k: K, v: V): (r: map<K, V>)
    ensures r.Keys == m.Keys + {k}
    ensures forall j :: j in m ==> r[j] == m[j]
    ensures k !in m ==> r[k] == v
  {
    if k in m then m else m[k := v]
  }

  /** The two maps are exact inverses of each other. */
  ghost predicate Inverse(i2s: map<int, string>, s2i: map<string, int>)
  {
    && (forall t :: t in i2s ==> i2s[t] in s2i && s2i[i2s[t]] == t)
    && (forall n :: n in s2i ==> s2i[n] in i2s && i2s[s2i[n]] == n)
  }

  /** The two maps after SetCache is called with each pair of `pairs` in turn. */
  function SetAll(i2s: map<int, string>, s2i: map<string, int>, pairs: seq<(int, string)>)
    : (map<int, string>, map<string, int>)
    decreases |pairs|
  {
    if pairs == [] then (i2s, s2i)
    else SetAll(TryAdd(i2s, pairs[0].0, pairs[0].1), TryAdd(s2i, pairs[0].1, pairs[0].0), pairs[1..])
  }

  /**
   * Registering pairs whose ids and names are all fresh and pairwise distinct
   * keeps the maps exact inverses, and every pair round-trips afterwards.
   */
  lemma {:induction false} FreshRegistrationsStayInverse(
    i2s: map<int, string>, s2i: map<string, int>, pairs: seq<(int, string)>)
    requires Inverse(i2s, s2i)
    requires forall i :: 0 <= i < |pairs| ==> pairs[i].0 !in i2s && pairs[i].1 !in s2i
    requires forall i, j :: 0 <= i < j < |pairs| ==> pairs[i].0 != pairs[j].0 && pairs[i].1 != pairs[j].1
    ensures Inverse(SetAll(i2s, s2i, pairs).0, SetAll(i2s, s2i, pairs).1)
    ensures forall i :: 0 <= i < |pairs| ==>
              && pairs[i].0 in SetAll(i2s, s2i, pairs).0
              && SetAll(i2s, s2i, pairs).0[pairs[i].0] == pairs[i].1
              && pairs[i].1 in SetAll(i2s, s2i, pairs).1
              && SetAll(i2s, s2i, pairs).1[pairs[i].1] == pairs[i].0
    decreases |pairs|
  {
    if pairs != [] {
      var (t, n) := pairs[0];
      var i2s', s2i' := TryAdd(i2s, t, n), TryAdd(s2i, n, t);
      assert Inverse(i2s', s2i');
      forall i | 0 <= i < |pairs[1..]|
        ensures pairs[1..][i].0 !in i2s' && pairs[1..][i].1 !in s2i'
      {
        assert pairs[1..][i] == pairs[i + 1];
      }
      FreshRegistrationsStayInverse(i2s', s2i', pairs[1..]);
      SetAllKeepsType(i2s', s2i', pairs[1..], t);
      SetAllKeepsName(i2s', s2i', pairs[1..], n);
    }
  }

  /** Later registrations never change the name of an id that is already present. */
  lemma {:induction false} SetAllKeepsType(
    i2s: map<int, string>, s2i: map<string, int>, pairs: seq<(int, string)>, t: int)
    requires t in i2s
    ensures t in SetAll(i2s, s2i, pairs).0 && SetAll(i2s, s2i, pairs).0[t] == i2s[t]
    decreases |pairs|
  {
    if pairs != [] {
      SetAllKeepsType(TryAdd(i2s, pairs[0].0, pairs[0].1), TryAdd(s2i, pairs[0].1, pairs[0].0), pairs[1..], t);
    }
  }

  /** Later registrations never change the type of a name that is already present. */
  lemma {:induction false} SetAllKeepsName(
    i2s: map<int, string>, s2i: map<string, int>, pairs: seq<(int, string)>, n: string)
    requires n in s2i
    ensures n in SetAll(i2s, s2i, pairs).1 && SetAll(i2s, s2i, pairs).1[n] == s2i[n]
    decreases |pairs|
  {
    if pairs != [] {
      SetAllKeepsName(TryAdd(i2s, pairs[0].0, pairs[0].1), TryAdd(s2i, pairs[0].1, pairs[0].0), pairs[1..], n);
    }
  }

  class TopicCache {
    var i2s: map<int, string>
    var s2i: map<string, int>

    /** The two maps are exact inverses of each other. */
    ghost predicate Consistent()
      reads this
    {
      Inverse(i2s, s2i)
    }

    constructor ()
      ensures i2s == map[] && s2i == map[]
      ensures Consistent()
    {
      i2s := map[];
      s2i := map[];
    }

    /** Name registered for `topicType`; `None` (null) on a miss. */
    function GetName(topicType: int): (r: Option<string>)
      reads this
      ensures r.Some? <==> topicType in i2s
      ensures r.Some? ==> i2s[topicType] == r.value
    {
      if topicType in i2s then Some(i2s[topicType]) else None
    }

    /** Topic type registered for `topicName`; 0 on a miss. */
    function GetType(topicName: string): (r: int)
      reads this
      ensures topicName in s2i ==> r == s2i[topicName]
      ensures topicName !in s2i ==> r == 0
    {
      if topicName in s2i then s2i[topicName] else 0
    }

    /** SetCache as written: two independent TryAdd calls. */
    method SetCache(topicType: int, topicName: string)
      modifies this
      ensures i2s == TryAdd(old(i2s), topicType, topicName)
      ensures s2i == TryAdd(old(s2i), topicName, topicType)
      ensures topicType !in old(i2s) && topicName !in old(s2i) ==>
                GetName(topicType) == Some(topicName) && GetType(topicName) == topicType
      ensures topicType in old(i2s) ==> GetName(topicType) == old(GetName(topicType))
      ensures topicName in old(s2i) ==> GetType(topicName) == old(GetType(topicName))
      ensures old(Consistent()) && topicType !in old(i2s) && topicName !in old(s2i) ==> Consistent()
    {
      i2s := TryAdd(i2s, topicType, topicName);
      s2i := TryAdd(s2i, topicName, topicType);
    }

    /**
     * The evidently intended registration: insert the pair only when neither
     * key is present, so the two directions never disagree.
     */
    method SetCachePaired(topicType: int, topicName: string)
      modifies this
      ensures topicType !in old(i2s) && topicName !in old(s2i) ==>
                i2s == old(i2s)[topicType := topicName] && s2i == old(s2i)[topicName := topicType]
      ensures topicType in old(i2s) || topicName in old(s2i) ==>
                i2s == old(i2s) && s2i == old(s2i)
      ensures old(Consistent()) ==> Consistent()
    {
      if topicType !in i2s && topicName !in s2i {
        i2s := i2s[topicType := topicName];
        s2i := s2i[topicName := topicType];
      }
    }
  }

  /** On a consistent cache every lookup in one direction is undone by the other. */
  lemma LookupRoundTrip(cache: TopicCache, topicType: int, topicName: string)
    requires cache.Consistent()
    ensures cache.GetName(topicType).Some? ==>
              cache.GetType(cache.GetName(topicType).value) == topicType
    ensures topicName in cache.s2i ==>
              cache.GetName(cache.GetType(topicName)) == Some(topicName)
  {
  }

  /** A miss returns the type's default: null for a name, 0 for a type. */
  lemma MissReturnsDefault(cache: TopicCache, topicType: int, topicName: string)
    requires topicType !in cache.i2s && topicName !in cache.s2i
    ensures cache.GetName(topicType) == None
    ensures cache.GetType(topicName) == 0
  {
  }

  /**
   * With the id already taken by another name and the name still free, the
   * name is registered anyway: the name-to-type direction points at a type
   * whose name is a different string.
   */
  lemma DriftWhenTypeTaken(i2s: map<int, string>, s2i: map<string, int>, topicType: int, topicName: string)
    requires topicType in i2s && i2s[topicType] != topicName
    requires topicName !in s2i
    ensures TryAdd(s2i, topicName, topicType)[topicName] == topicType
    ensures TryAdd(i2s, topicType, topicName)[topicType] != topicName
  {
  }

  /**
   * The other direction: with the name already taken by another type and the
   * id still free, the id is registered anyway, so the type-to-name direction
   * names a string that maps back to a different type.
   */
  lemma DriftWhenNameTaken(i2s: map<int, string>, s2i: map<string, int>, topicType: int, topicName: string)
    requires topicName in s2i && s2i[topicName] != topicType
    requires topicType !in i2s
    ensures TryAdd(i2s, topicType, topicName)[topicType] == topicName
    ensures TryAdd(s2i, topicName, topicType)[topicName] != topicType
  {
  }

  /** SetCache(1, "a"); SetCache(1, "b") leaves Get("b") == 1 but Get(1) == "a". */
  method DriftExample() returns (typeOfB: int, nameOfType: Option<string>)
    ensures typeOfB == 1
    ensures nameOfType == Some("a")
    ensures nameOfType != Some("b")
  {
    var cache := new TopicCache();
    cache.SetCache(1, "a");
    cache.SetCache(1, "b");
    typeOfB := cache.GetType("b");
    nameOfType := cache.GetName(typeOfB);
  }
}
