/** Topic bootstrap (internal/infrastructure/kafka/admin.go): dial the broker
    with a bounded retry, find the controller, read the existing partitions
    and create the requested topics that are missing. The cluster's answers
    to each request are given as a `Cluster` value. */
module KafkaAdmin {
  import opened Wrappers
  import opened BoundedRetry

  /** kafkaMaxRetries. */
  const MaxDialAttempts: nat := 10
  const DialFailurePrefix := "failed to dial kafka after 10 attempts: "

  datatype Partition = Partition(topic: string, id: nat)
  datatype Broker = Broker(host: string, port: nat)
  datatype TopicConfig = TopicConfig(topic: string, numPartitions: nat, replicationFactor: nat)

  /** What the cluster answers: one outcome per dial of the bootstrap
      address, the controller lookup, the dial of the controller, the
      partition listing and the topic creation. */
  datatype Cluster = Cluster(
    dials: seq<Attempt<()>>,
    controller: Result<Broker>,
    controllerDialErr: Option<string>,
    partitions: Result<seq<Partition>>,
    createErr: Option<string>)

  /** The topics that have at least one partition. */
  function TopicsOf(parts: seq<Partition>): (r: set<string>)
    ensures forall p :: p in parts ==> p.topic in r
    ensures forall t :: t in r ==> exists p :: p in parts && p.topic == t
  {
    set p | p in parts :: p.topic
  }

  /** The creation request: one single-partition, single-replica config per
      requested topic that does not exist, in argument order, duplicates
      kept. */
  function ToCreate(topics: seq<string>, existing: set<string>): (r: seq<TopicConfig>)
    ensures |r| <= |topics|
    ensures forall c :: c in r ==> c.numPartitions == 1 && c.replicationFactor == 1
    ensures forall c :: c in r ==> c.topic in topics && c.topic !in existing
    decreases |topics|
  {
    if topics == [] then []
    else
      var t := topics[|topics| - 1];
      ToCreate(topics[..|topics| - 1], existing) + (if t in existing then [] else [TopicConfig(t, 1, 1)])
  }

  function TopicNames(cs: seq<TopicConfig>): seq<string> {
    if cs == [] then [] else [cs[0].topic] + TopicNames(cs[1..])
  }

  /** Whether the bootstrap got as far as the creation step, and with which
      existing topics. */
  function ReachedCreate(cluster: Cluster): Option<set<string>>
    requires MaxDialAttempts <= |cluster.dials|
  {
    if Retry(cluster.dials, MaxDialAttempts).0.Err? || cluster.controller.Err?
       || cluster.controllerDialErr.Some? || cluster.partitions.Err?
    then None
    else Some(TopicsOf(cluster.partitions.value))
  }

  /** EnsureTopics. Returns the outcome, the number of dials made and the
      creation request sent, if any. */
  method EnsureTopics(topics: seq<string>, cluster: Cluster)
    returns (r: Outcome, dialsMade: nat, created: Option<seq<TopicConfig>>)
    requires MaxDialAttempts <= |cluster.dials|
    ensures 1 <= dialsMade <= MaxDialAttempts
    ensures dialsMade == Retry(cluster.dials, MaxDialAttempts).1
    ensures (forall i :: 0 <= i < MaxDialAttempts ==> cluster.dials[i].AttemptFailed?) ==>
      r == Fail(DialFailurePrefix + cluster.dials[MaxDialAttempts - 1].error) && created == None
    ensures Retry(cluster.dials, MaxDialAttempts).0.Ok? && cluster.controller.Err? ==>
      r == Fail(cluster.controller.error) && created == None
    ensures Retry(cluster.dials, MaxDialAttempts).0.Ok? && cluster.controller.Ok? && cluster.controllerDialErr.Some? ==>
      r == Fail(cluster.controllerDialErr.value) && created == None
    ensures Retry(cluster.dials, MaxDialAttempts).0.Ok? && cluster.controller.Ok? && cluster.controllerDialErr.None?
            && cluster.partitions.Err? ==>
      r == Fail(cluster.partitions.error) && created == None
    ensures ReachedCreate(cluster).Some? ==>
      var plan := ToCreate(topics, ReachedCreate(cluster).value);
      && created == (if plan == [] then None else Some(plan))
      && r == (if plan != [] && cluster.createErr.Some? then Fail(cluster.createErr.value) else Pass)
  {
    var connected, lastErr;
    connected, lastErr, dialsMade := Dial(cluster.dials);
    RetryContract(cluster.dials, MaxDialAttempts);
    created := None;
    if !connected {
      return Fail(DialFailurePrefix + lastErr), dialsMade, created;
    }
    if cluster.controller.Err? {
      return Fail(cluster.controller.error), dialsMade, created;
    }
    if cluster.controllerDialErr.Some? {
      return Fail(cluster.controllerDialErr.value), dialsMade, created;
    }
    if cluster.partitions.Err? {
      return Fail(cluster.partitions.error), dialsMade, created;
    }
    var existingTopics := ExistingTopics(cluster.partitions.value);
    var toCreate := MissingTopics(topics, existingTopics);
    r := Pass;
    if |toCreate| > 0 {
      created := Some(toCreate);
      if cluster.createErr.Some? {
        r := Fail(cluster.createErr.value);
      }
    }
  }

  /** The bounded dial loop: dial until one succeeds or ten have failed. */
  method Dial(dials: seq<Attempt<()>>) returns (connected: bool, lastErr: string, dialsMade: nat)
    requires MaxDialAttempts <= |dials|
    ensures connected <==> Retry(dials, MaxDialAttempts).0.Ok?
    ensures !connected ==> lastErr == Retry(dials, MaxDialAttempts).0.error
    ensures dialsMade == Retry(dials, MaxDialAttempts).1
  {
    var i := 0;
    connected := false;
    lastErr := "";
    while i < MaxDialAttempts && !connected
      invariant 0 <= i <= MaxDialAttempts
      invariant !connected && i < MaxDialAttempts ==>
        Retry(dials, MaxDialAttempts)
          == (Retry(dials[i..], MaxDialAttempts - i).0, Retry(dials[i..], MaxDialAttempts - i).1 + i)
      invariant connected ==> Retry(dials, MaxDialAttempts).0.Ok? && Retry(dials, MaxDialAttempts).1 == i
      invariant !connected && i == MaxDialAttempts ==> Retry(dials, MaxDialAttempts) == (Err(lastErr), i)
      decreases MaxDialAttempts - i
    {
      assert dials[i..][1..] == dials[i + 1..];
      match dials[i] {
        case Succeeded(_) => connected := true;
        case AttemptFailed(e) => lastErr := e;
      }
      i := i + 1;
    }
    dialsMade := i;
  }

  /** existingTopics: the set of topics of the existing partitions. */
  method ExistingTopics(existing: seq<Partition>) returns (topics: set<string>)
    ensures topics == TopicsOf(existing)
  {
    topics := {};
    var j := 0;
    while j < |existing|
      invariant 0 <= j <= |existing|
      invariant topics == TopicsOf(existing[..j])
    {
      assert existing[..j + 1] == existing[..j] + [existing[j]];
      topics := topics + {existing[j].topic};
      j := j + 1;
    }
    assert existing[..j] == existing;
  }

  /** toCreate: the requested topics that are missing, appended in order. */
  method MissingTopics(topics: seq<string>, existing: set<string>) returns (toCreate: seq<TopicConfig>)
    ensures toCreate == ToCreate(topics, existing)
  {
    toCreate := [];
    var k := 0;
    while k < |topics|
      invariant 0 <= k <= |topics|
      invariant toCreate == ToCreate(topics[..k], existing)
    {
      assert topics[..k + 1][..k] == topics[..k];
      if topics[k] !in existing {
        toCreate := toCreate + [TopicConfig(topics[k], 1, 1)];
      }
      k := k + 1;
    }
    assert topics[..k] == topics;
  }

  // ---------------------------------------------------------------------
  // Properties of the creation request

  /** A topic is requested for creation exactly when it was asked for and has
      no partition. */
  lemma {:induction false} ToCreateMembership(topics: seq<string>, existing: set<string>)
    ensures forall t :: t in TopicNames(ToCreate(topics, existing)) <==> t in topics && t !in existing
    decreases |topics|
  {
    if topics != [] {
      var init := topics[..|topics| - 1];
      var t := topics[|topics| - 1];
      ToCreateMembership(init, existing);
      var tail: seq<TopicConfig> := if t in existing then [] else [TopicConfig(t, 1, 1)];
      TopicNamesAppend(ToCreate(init, existing), tail);
      assert topics == init + [t];
    }
  }

  lemma {:induction false} TopicNamesAppend(a: seq<TopicConfig>, b: seq<TopicConfig>)
    ensures TopicNames(a + b) == TopicNames(a) + TopicNames(b)
    decreases |a|
  {
    if a != [] {
      assert (a + b)[0] == a[0];
      assert (a + b)[1..] == a[1..] + b;
      TopicNamesAppend(a[1..], b);
    } else {
      assert a + b == b;
    }
  }

  /** Duplicates are kept: a missing topic asked for n times is requested n
      times; an existing one never. */
  lemma {:induction false} ToCreateMultiplicity(topics: seq<string>, existing: set<string>, t: string)
    ensures multiset(TopicNames(ToCreate(topics, existing)))[t] == if t in existing then 0 else multiset(topics)[t]
    decreases |topics|
  {
    if topics != [] {
      var init := topics[..|topics| - 1];
      var last := topics[|topics| - 1];
      ToCreateMultiplicity(init, existing, t);
      assert topics == init + [last];
      ToCreateNamesStep(init, last, existing);
      assert multiset(topics) == multiset(init) + multiset{last};
    }
  }

  lemma ToCreateNamesStep(init: seq<string>, last: string, existing: set<string>)
    ensures multiset(TopicNames(ToCreate(init + [last], existing)))
         == multiset(TopicNames(ToCreate(init, existing))) + (if last in existing then multiset{} else multiset{last})
  {
    var tail: seq<TopicConfig> := if last in existing then [] else [TopicConfig(last, 1, 1)];
    assert (init + [last])[..|init + [last]| - 1] == init;
    assert ToCreate(init + [last], existing) == ToCreate(init, existing) + tail;
    TopicNamesAppend(ToCreate(init, existing), tail);
  }

  /** Argument order is kept: the request for a concatenation is the
      concatenation of the requests. */
  lemma {:induction false} ToCreateConcat(a: seq<string>, b: seq<string>, existing: set<string>)
    ensures ToCreate(a + b, existing) == ToCreate(a, existing) + ToCreate(b, existing)
    decreases |b|
  {
    if b == [] {
      assert a + b == a;
    } else {
      var init := b[..|b| - 1];
      assert (a + b)[..|a + b| - 1] == a + init;
      ToCreateConcat(a, init, existing);
    }
  }

  /** When every requested topic exists, nothing is created. */
  lemma NothingToCreate(topics: seq<string>, existing: set<string>)
    requires forall t :: t in topics ==> t in existing
    ensures ToCreate(topics, existing) == []
  {
    ToCreateMembership(topics, existing);
  }
}
