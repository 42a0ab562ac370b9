/** The hub with atomic operations: a heap of shards, quota counters and clients that stands
    for the flat relation {(key, client)} of the registered clients. */
module Hub {
  import opened Sequences
  import opened Options
  import opened Hashing
  import opened Quota
  import opened ClientQueue
  import opened Clients
  import opened HubShard
  import opened HubIndex
  import S = Shards

  datatype HubError = HubClosed | MaxTopicsExceeded | QuotaExceeded(reason: QuotaError)

  /** Why a connection would be refused, if it would. */
  function Refusal(closed: bool, limits: Limits, q: Counters, tenant: string, user: string, topicCount: int): Option<HubError> {
    if closed then Some(HubClosed)
    else if limits.maxTopics > 0 && topicCount > limits.maxTopics then Some(MaxTopicsExceeded)
    else
      var e := Check(q, limits, tenant, user);
      if e.Some? then Some(QuotaExceeded(e.value)) else None
  }

  /** A closed hub refuses everyone for that reason; an open one refuses too many topics for that
      reason; and whoever is left is refused exactly when, and as, the quota check says. */
  lemma RefusalMeans(closed: bool, limits: Limits, q: Counters, tenant: string, user: string, topicCount: int)
    ensures var r, e := Refusal(closed, limits, q, tenant, user, topicCount), Check(q, limits, tenant, user);
      && (r == Some(HubClosed) <==> closed)
      && (r == Some(MaxTopicsExceeded) <==> !closed && 0 < limits.maxTopics < topicCount)
      && (r.None? <==> !closed && !(0 < limits.maxTopics < topicCount) && e.None?)
      && (r.Some? && r.value.QuotaExceeded? ==> e == Some(r.value.reason))
  {
  }

  /** A client whose names contain no colon is admitted exactly when the hub is open, its topics
      are not too many, and one more connection keeps every limit. */
  lemma RefusalExact(closed: bool, limits: Limits, q: Counters, held: set<Profile>, p: Profile)
    requires Counts(q, held) && WithinLimits(limits, held) && p !in held && ':' !in p.tenant && ':' !in p.user
    ensures Refusal(closed, limits, q, p.tenant, p.user, |p.topics|).None? <==>
      && !closed
      && (limits.maxTopics > 0 ==> |p.topics| <= limits.maxTopics)
      && WithinLimits(limits, held + {p})
  {
    CheckExact(q, limits, held, p);
  }

  ghost function Profiles(live: set<Client>): set<Profile> {
    set c | c in live :: c.profile
  }

  /** What the callback that decrypts an event and builds its frame comes back with. */
  datatype Outcome = Built(frame: Frame) | NoFrame | BuildFailed(error: string)

  /** The callback, counting its executions. */
  class FrameBuilder {
    const outcome: Outcome
    var runs: nat

    constructor (outcome: Outcome)
      ensures this.outcome == outcome && runs == 0
    {
      this.outcome := outcome;
      runs := 0;
    }

    method Run() returns (o: Outcome)
      modifies this
      ensures o == outcome && runs == old(runs) + 1
    {
      runs := runs + 1;
      o := outcome;
    }
  }

  /** The send queues of some clients. */
  ghost function Queues(clients: set<Client>): map<Client, Queue>
    reads clients
  {
    map c | c in clients :: c.View()
  }

  /** The queues after a frame was offered to the clients in `to`, once to each. */
  ghost function Offered(queues: map<Client, Queue>, to: set<Client>, frame: Frame): map<Client, Queue> {
    map c | c in queues :: if c in to then Offer(queues[c], c.capacity, c.policy, frame).0 else queues[c]
  }

  /** The clients in `to` that accept the frame. */
  ghost function Accepting(queues: map<Client, Queue>, to: set<Client>, frame: Frame): set<Client> {
    set c | c in to && c in queues && Offer(queues[c], c.capacity, c.policy, frame).1
  }

  /** The effect of a broadcast to the clients in `to`. */
  ghost function Broadcasted(queues: map<Client, Queue>, to: set<Client>, outcome: Outcome): map<Client, Queue> {
    if to != {} && outcome.Built? then Offered(queues, to, outcome.frame) else queues
  }

  /** How many clients accept the frame of a broadcast. */
  ghost function Deliveries(queues: map<Client, Queue>, to: set<Client>, outcome: Outcome): nat {
    if to != {} && outcome.Built? then |Accepting(queues, to, outcome.frame)| else 0
  }

  /** A client takes a frame exactly when it is open and has room or drops its oldest frames. */
  ghost predicate Takes(q: Queue, c: Client) {
    !q.closed && (|q.send| < c.capacity || c.policy == "drop_oldest")
  }

  /** A broadcast that builds a frame adds it, as the last of those that fit, to the queue of each
      addressed client that takes it, changes the frames of no other queue, and counts exactly
      those clients; a broadcast that builds none changes nothing. */
  lemma BroadcastMeans(queues: map<Client, Queue>, to: set<Client>, outcome: Outcome)
    requires to <= queues.Keys && forall c :: c in queues ==> c.capacity > 0 && |queues[c].send| <= c.capacity
    ensures var after := Broadcasted(queues, to, outcome);
      && after.Keys == queues.Keys
      && (outcome.Built? ==> forall c :: c in queues ==>
            after[c].send == if c in to && Takes(queues[c], c) then Last(queues[c].send + [outcome.frame], c.capacity) else queues[c].send)
      && (forall c :: c in queues && c !in to ==> after[c] == queues[c])
      && (!outcome.Built? ==> after == queues)
      && Deliveries(queues, to, outcome) == if outcome.Built? then |set c | c in to && Takes(queues[c], c)| else 0
  {
    if outcome.Built? {
      forall c | c in queues { OfferMeans(queues[c], c.capacity, c.policy, outcome.frame); }
      assert Accepting(queues, to, outcome.frame) == set c | c in to && Takes(queues[c], c);
    }
  }

  lemma AcceptingGrows(queues: map<Client, Queue>, to: set<Client>, frame: Frame, c: Client)
    requires c in queues && c !in to
    ensures |Accepting(queues, to + {c}, frame)| ==
            |Accepting(queues, to, frame)| + if Offer(queues[c], c.capacity, c.policy, frame).1 then 1 else 0
  {
    var more := Accepting(queues, to + {c}, frame);
    assert Offer(queues[c], c.capacity, c.policy, frame).1 ==> more == Accepting(queues, to, frame) + {c};
    assert !Offer(queues[c], c.capacity, c.policy, frame).1 ==> more == Accepting(queues, to, frame);
  }

  /** Offers one frame to each client of a snapshot and counts those that accept it. */
  method Fanout(recipients: seq<Client>, frame: Frame, ghost all: set<Client>, ghost to: set<Client>) returns (delivered: nat)
    requires Distinct(recipients) && (forall c :: c in recipients <==> c in to) && to <= all
    modifies all`send, all`closed
    ensures Queues(all) == Offered(old(Queues(all)), to, frame)
    ensures delivered == |Accepting(old(Queues(all)), to, frame)|
  {
    ghost var before := Queues(all);
    ghost var done: set<Client> := {};
    delivered := 0;
    var i := 0;
    while i < |recipients|
      invariant 0 <= i <= |recipients| && done <= to && forall c :: c in to ==> (c in done <==> c in recipients[..i])
      invariant forall c :: c in all ==> c.View() == if c in done then Offer(before[c], c.capacity, c.policy, frame).0 else before[c]
      invariant delivered == |Accepting(before, done, frame)|
    {
      var client := recipients[i];
      assert client in to && client !in done;
      assert recipients[..i + 1] == recipients[..i] + [client];
      AcceptingGrows(before, done, frame, client);
      var ok := client.EnqueueFrame(frame);
      if ok {
        delivered := delivered + 1;
      }
      done := done + {client};
      i := i + 1;
    }
    assert recipients[..i] == recipients;
    assert done == to;
  }

  /** The part of a broadcast after the snapshot of recipients. */
  method BuildAndFanout(recipients: seq<Client>, builder: FrameBuilder, ghost all: set<Client>, ghost to: set<Client>)
    returns (delivered: nat, err: Option<string>)
    requires Distinct(recipients) && (forall c :: c in recipients <==> c in to) && to <= all
    modifies all`send, all`closed, builder
    ensures builder.runs == old(builder.runs) + if to != {} then 1 else 0
    ensures err == if to != {} && builder.outcome.BuildFailed? then Some(builder.outcome.error) else None
    ensures Queues(all) == Broadcasted(old(Queues(all)), to, builder.outcome)
    ensures delivered == Deliveries(old(Queues(all)), to, builder.outcome)
  {
    if |recipients| == 0 {
      return 0, None;
    }
    assert recipients[0] in to;
    var outcome := builder.Run();
    match outcome {
      case BuildFailed(e) => return 0, Some(e);
      case NoFrame => return 0, None;
      case Built(frame) =>
        delivered := Fanout(recipients, frame, all, to);
        err := None;
    }
  }

  /** The queues after a heartbeat has gone through the shards below `i`: each client was
      offered the frame once for each of them that hosts its keys. */
  ghost function Beaten(hash: HashFunction, count: int, queues: map<Client, Queue>, frame: Frame, i: nat): map<Client, Queue>
    requires Partitioned(count)
  {
    map c | c in queues :: OfferTimes(queues[c], c.capacity, c.policy, frame, |Hosts(hash, count, c, i)|)
  }

  lemma BeatStep(hash: HashFunction, count: int, queues: map<Client, Queue>, frame: Frame, i: nat, to: set<Client>)
    requires Partitioned(count)
    requires forall c :: c in queues ==> (c in to <==> HostedAt(hash, count, c, i))
    ensures Offered(Beaten(hash, count, queues, frame, i), to, frame) == Beaten(hash, count, queues, frame, i + 1)
  {
    var here, next := Beaten(hash, count, queues, frame, i), Beaten(hash, count, queues, frame, i + 1);
    forall c | c in queues
      ensures next[c] == if c in to then Offer(here[c], c.capacity, c.policy, frame).0 else here[c]
    {
      HostsGrow(hash, count, c, i);
    }
  }

  lemma BeatStart(hash: HashFunction, count: int, queues: map<Client, Queue>, frame: Frame)
    requires Partitioned(count)
    ensures Beaten(hash, count, queues, frame, 0) == queues
  {
  }

  /** Offering the frame to an open queue with room leaves the frame in it, however many further
      times it is offered. */
  lemma {:induction false} OfferedStays(q: Queue, capacity: nat, policy: string, frame: Frame, n: nat)
    requires !q.closed && |q.send| < capacity && n >= 1
    ensures var send := OfferTimes(q, capacity, policy, frame, n).send; send != [] && send[|send| - 1] == frame
  {
    if n == 1 {
      assert OfferTimes(q, capacity, policy, frame, 0) == q;
      assert OfferTimes(q, capacity, policy, frame, 1).send == q.send + [frame];
    } else {
      OfferedStays(q, capacity, policy, frame, n - 1);
    }
  }

  /** A heartbeat reaches every open client that has a key and room in its queue. */
  lemma HeartbeatArrives(hash: HashFunction, count: nat, queues: map<Client, Queue>, frame: Frame, c: Client)
    requires Partitioned(count) && c in queues && c.profile.topics != []
    requires !queues[c].closed && |queues[c].send| < c.capacity
    ensures frame in Beaten(hash, count, queues, frame, count)[c].send
  {
    HostedSomewhere(hash, count, c);
    OfferedStays(queues[c], c.capacity, c.policy, frame, |Hosts(hash, count, c, count)|);
  }

  function Copies(frame: Frame, n: nat): seq<Frame> {
    seq(n, i => frame)
  }

  /** With room enough, every offer adds one copy. */
  lemma {:induction false} OfferedCopies(q: Queue, capacity: nat, policy: string, frame: Frame, n: nat)
    requires !q.closed && |q.send| + n <= capacity
    ensures OfferTimes(q, capacity, policy, frame, n) == q.(send := q.send + Copies(frame, n))
  {
    if n == 0 {
      assert q.send + Copies(frame, 0) == q.send;
    } else {
      OfferedCopies(q, capacity, policy, frame, n - 1);
      assert q.send + Copies(frame, n - 1) + [frame] == q.send + Copies(frame, n);
    }
  }

  /** An open client with room gets one copy of a heartbeat for each shard that hosts its keys. */
  lemma HeartbeatCopies(hash: HashFunction, count: nat, queues: map<Client, Queue>, frame: Frame, c: Client)
    requires Partitioned(count) && c in queues && !queues[c].closed
    requires |queues[c].send| + |Hosts(hash, count, c, count)| <= c.capacity
    ensures Beaten(hash, count, queues, frame, count)[c].send == queues[c].send + Copies(frame, |Hosts(hash, count, c, count)|)
  {
    OfferedCopies(queues[c], c.capacity, c.policy, frame, |Hosts(hash, count, c, count)|);
  }

  /** A heartbeat is offered to a client exactly once if and only if the client has a key and all
      its keys are in the same shard. */
  lemma HeartbeatOnceExactly(hash: HashFunction, count: nat, c: Client)
    requires Partitioned(count)
    ensures |Hosts(hash, count, c, count)| == 1 <==>
      && c.profile.topics != []
      && forall k :: k in c.profile.topics ==> ShardIndex(hash, k, count) == ShardIndex(hash, c.profile.topics[0], count)
  {
    var hosts := Hosts(hash, count, c, count);
    if c.profile.topics == [] {
      assert hosts == {};
    } else {
      var first := ShardIndex(hash, c.profile.topics[0], count);
      assert first in hosts;
      if forall k :: k in c.profile.topics ==> ShardIndex(hash, k, count) == first {
        assert hosts == {first};
      } else {
        var k :| k in c.profile.topics && ShardIndex(hash, k, count) != first;
        var other := ShardIndex(hash, k, count);
        assert {first, other} <= hosts;
        SubsetSize({first, other}, hosts);
      }
    }
  }

  /** The relation without some keys of a client. */
  ghost function Without(rel: Relation, c: Client, keys: seq<string>): Relation {
    set p | p in rel && !(p.1 == c && p.0 in keys)
  }

  lemma WithoutMore(rel: Relation, c: Client, keys: seq<string>, n: nat)
    requires n < |keys|
    ensures Without(rel, c, keys[..n + 1]) == Without(rel, c, keys[..n]) - {(keys[n], c)}
  {
    assert keys[..n + 1] == keys[..n] + [keys[n]];
  }

  lemma FlatJoins(live: set<Client>, c: Client)
    ensures Flat(live + {c}) == Flat(live) + set k | k in c.profile.topics :: (k, c)
  {
  }

  lemma FlatLeaves(live: set<Client>, c: Client)
    ensures Flat(live - {c}) == Flat(live) - set k | k in c.profile.topics :: (k, c)
  {
  }

  lemma CountsJoin(q: Counters, live: set<Client>, c: Client)
    requires Counts(q, Profiles(live)) && forall d :: d in live ==> d.profile.id != c.profile.id
    ensures Counts(Acquired(q, c.profile.tenant, c.profile.user), Profiles(live + {c}))
  {
    AcquireCounts(q, Profiles(live), c.profile);
    assert Profiles(live + {c}) == Profiles(live) + {c.profile};
  }

  lemma CountsLeave(q: Counters, live: set<Client>, c: Client)
    requires Counts(q, Profiles(live)) && UniqueIds(live) && c in live
    ensures Counts(Released(q, c.profile.tenant, c.profile.user), Profiles(live - {c}))
  {
    ReleaseCounts(q, Profiles(live), c.profile);
    assert Profiles(live - {c}) == Profiles(live) - {c.profile};
  }

  /** No client has more topics than the limit. */
  ghost predicate TopicsWithin(limits: Limits, live: set<Client>) {
    limits.maxTopics > 0 ==> forall c :: c in live ==> |c.profile.topics| <= limits.maxTopics
  }

  /** Fewer clients keep the limits. */
  lemma LimitsShrink(limits: Limits, live: set<Client>, less: set<Client>)
    requires less <= live && WithinLimits(limits, Profiles(live))
    ensures WithinLimits(limits, Profiles(less))
  {
    var held, left := Profiles(live), Profiles(less);
    SubsetSize(left, held);
    forall t, u ensures |OfUser(left, t, u)| <= |OfUser(held, t, u)| { SubsetSize(OfUser(left, t, u), OfUser(held, t, u)); }
    forall t ensures |OfTenant(left, t)| <= |OfTenant(held, t)| { SubsetSize(OfTenant(left, t), OfTenant(held, t)); }
  }

  lemma LimitsJoin(q: Counters, limits: Limits, live: set<Client>, c: Client)
    requires Counts(q, Profiles(live)) && WithinLimits(limits, Profiles(live))
    requires (forall d :: d in live ==> d.profile.id != c.profile.id) && Check(q, limits, c.profile.tenant, c.profile.user).None?
    ensures WithinLimits(limits, Profiles(live + {c}))
  {
    AdmissionKeepsLimits(q, limits, Profiles(live), c.profile);
    assert Profiles(live + {c}) == Profiles(live) + {c.profile};
  }

  class Hub {
    const shards: seq<Shard>
    const hash: HashFunction
    const limits: Limits
    const quotas: QuotaTracker
    var closed: bool
    /** The registered clients. */
    ghost var live: set<Client>

    ghost function Contents(): Views
      reads shards
    {
      seq(|shards|, i requires 0 <= i < |shards| reads shards => shards[i].View())
    }

    ghost predicate Shape()
      reads shards
    {
      && Partitioned(|shards|)
      && (forall i, j :: 0 <= i < j < |shards| ==> shards[i] != shards[j])
      && (forall i :: 0 <= i < |shards| ==> shards[i].Valid())
    }

    /** The shards hold exactly the flat relation, the tables are tidy, and the counters count
        exactly the registered clients. */
    ghost predicate Consistent()
      reads this, shards, quotas
    {
      && Shape()
      && quotas.limits == limits
      && UniqueIds(live)
      && Index(hash, Contents(), Flat(live))
      && AllTidy(Contents())
      && Counts(quotas.View(), Profiles(live))
    }

    ghost predicate Valid()
      reads this, shards, quotas, live
    {
      Consistent() && forall c :: c in live ==> !c.unregistered
    }

    /** The registered clients keep every limit: on connections, and on the topics of each.  A new
        hub does, and every operation keeps it so. */
    ghost predicate Limited()
      reads this
    {
      TopicsWithin(limits, live) && WithinLimits(limits, Profiles(live))
    }

    constructor (numShards: int, limits: Limits, hash: HashFunction)
      requires numShards < TWO_TO_THE_32
      ensures Valid() && Limited() && live == {} && !closed && this.limits == limits && this.hash == hash
      ensures |shards| == if numShards <= 0 then 256 else numShards
      ensures fresh(quotas) && forall i :: 0 <= i < |shards| ==> fresh(shards[i])
    {
      var count := if numShards <= 0 then 256 else numShards;
      var made: seq<Shard> := [];
      while |made| < count
        invariant |made| <= count
        invariant forall i :: 0 <= i < |made| ==> fresh(made[i]) && made[i].Valid() && made[i].View() == S.Empty()
        invariant forall i, j :: 0 <= i < j < |made| ==> made[i] != made[j]
      {
        var shard := new Shard();
        made := made + [shard];
      }
      var tracker := new QuotaTracker(limits);
      shards := made;
      this.hash := hash;
      this.limits := limits;
      quotas := tracker;
      closed := false;
      live := {};
      new;
      ZeroCounts();
      assert Profiles({}) == {};
      assert forall t, u :: OfUser({}, t, u) == {};
      assert forall t :: OfTenant({}, t) == {};
      assert forall i :: 0 <= i < |shards| ==> Contents()[i] == S.Empty();
    }

    function ShardOf(key: string): (s: Shard)
      requires Partitioned(|shards|)
      ensures s in shards
    {
      shards[ShardIndex(hash, key, |shards|)]
    }

    method CheckLimits(tenantID: string, userID: string, topicCount: int) returns (err: Option<HubError>)
      requires quotas.limits == limits
      ensures err == Refusal(closed, limits, quotas.View(), tenantID, userID, topicCount)
    {
      if closed {
        return Some(HubClosed);
      }
      if limits.maxTopics > 0 && topicCount > limits.maxTopics {
        return Some(MaxTopicsExceeded);
      }
      var e := quotas.CheckUnderLock(tenantID, userID);
      err := if e.Some? then Some(QuotaExceeded(e.value)) else None;
    }

    method InsertKey(client: Client, rKey: string, ghost rel: Relation)
      requires Shape() && Index(hash, Contents(), rel) && AllTidy(Contents())
      requires forall p :: p in rel && p.1.profile.id == client.profile.id ==> p.1 == client
      modifies shards
      ensures Shape() && AllTidy(Contents()) && Index(hash, Contents(), rel + {(rKey, client)})
    {
      ghost var before := Contents();
      ghost var i := ShardIndex(hash, rKey, |shards|);
      InsertIndex(hash, before, rel, rKey, client);
      InsertTidy(before[i], rKey, client);
      var shard := ShardOf(rKey);
      shard.Register(rKey, client);
      assert Contents() == before[i := S.Insert(before[i], rKey, client.profile.id, client)];
    }

    /** Puts a client under its keys; the relation grows key by key. */
    method InsertKeys(client: Client, routingKeys: seq<string>, ghost rel: Relation)
      requires Shape() && Index(hash, Contents(), rel) && AllTidy(Contents())
      requires forall p :: p in rel ==> p.1.profile.id != client.profile.id
      modifies shards
      ensures Shape() && AllTidy(Contents())
      ensures Index(hash, Contents(), rel + set k | k in routingKeys :: (k, client))
    {
      var n := 0;
      ghost var cur := rel;
      while n < |routingKeys|
        invariant 0 <= n <= |routingKeys| && Shape() && AllTidy(Contents())
        invariant cur == rel + set k | k in routingKeys[..n] :: (k, client)
        invariant Index(hash, Contents(), cur)
      {
        assert routingKeys[..n + 1] == routingKeys[..n] + [routingKeys[n]];
        InsertKey(client, routingKeys[n], cur);
        cur := cur + {(routingKeys[n], client)};
        n := n + 1;
      }
      assert routingKeys[..n] == routingKeys;
    }

    /** The second half of a registration: the quota is acquired, the keys are missing. */
    method Attach(client: Client, routingKeys: seq<string>)
      requires Shape() && Index(hash, Contents(), Flat(live)) && AllTidy(Contents())
      requires routingKeys == client.profile.topics && forall c :: c in live ==> c.profile.id != client.profile.id
      modifies this`live, shards
      ensures Shape() && Index(hash, Contents(), Flat(live)) && AllTidy(Contents())
      ensures live == old(live) + {client}
    {
      InsertKeys(client, routingKeys, Flat(live));
      FlatJoins(live, client);
      live := live + {client};
    }

    /** The part of a registration after the first checks. */
    method Enter(client: Client, routingKeys: seq<string>) returns (e: Option<QuotaError>)
      requires Valid() && routingKeys == client.profile.topics
      requires !client.unregistered && forall c :: c in live ==> c.profile.id != client.profile.id
      modifies this`live, shards, quotas
      ensures Valid() && e == Check(old(quotas.View()), limits, client.profile.tenant, client.profile.user)
      ensures e.None? ==> live == old(live) + {client}
      ensures e.Some? ==> live == old(live) && Contents() == old(Contents()) && quotas.View() == old(quotas.View())
    {
      CountsJoin(quotas.View(), live, client);
      e := quotas.Acquire(client.profile.tenant, client.profile.user);
      if e.None? {
        Attach(client, routingKeys);
      }
    }

    method Register(client: Client, routingKeys: seq<string>) returns (err: Option<HubError>)
      requires Valid() && routingKeys == client.profile.topics
      requires !client.unregistered && forall c :: c in live ==> c.profile.id != client.profile.id
      modifies this`live, shards, quotas
      ensures Valid() && (old(Limited()) ==> Limited())
      ensures err == Refusal(closed, limits, old(quotas.View()), client.profile.tenant, client.profile.user, |routingKeys|)
      ensures err.None? ==> live == old(live) + {client}
      ensures err.Some? ==> live == old(live) && Contents() == old(Contents()) && quotas.View() == old(quotas.View())
    {
      if closed {
        return Some(HubClosed);
      }
      if limits.maxTopics > 0 && |routingKeys| > limits.maxTopics {
        return Some(MaxTopicsExceeded);
      }
      ghost var was, q := live, quotas.View();
      var e := Enter(client, routingKeys);
      if e.Some? {
        return Some(QuotaExceeded(e.value));
      }
      if old(Limited()) {
        LimitsJoin(q, limits, was, client);
      }
      err := None;
    }

    method RemoveKey(client: Client, topic: string, ghost rel: Relation)
      requires Shape() && Index(hash, Contents(), rel) && AllTidyBut(Contents(), client.profile.id)
      requires forall p :: p in rel && p.1.profile.id == client.profile.id ==> p.1 == client
      modifies shards
      ensures Shape() && AllTidyBut(Contents(), client.profile.id)
      ensures Index(hash, Contents(), rel - {(topic, client)})
    {
      ghost var before := Contents();
      ghost var i := ShardIndex(hash, topic, |shards|);
      RemoveIndex(hash, before, rel, topic, client);
      RemoveTidy(before[i], topic, client.profile.id);
      var shard := ShardOf(topic);
      shard.Unregister(topic, client.profile.id);
      assert Contents() == before[i := S.Remove(before[i], topic, client.profile.id)];
    }

    /** Takes a client from its keys; its listings go with the first key of each shard, so the
        tables are whole again only at the end. */
    method RemoveKeys(client: Client, ghost rel: Relation)
      requires Shape() && Index(hash, Contents(), rel) && AllTidy(Contents())
      requires forall p :: p in rel && p.1.profile.id == client.profile.id ==> p.1 == client && p.0 in client.profile.topics
      modifies shards
      ensures Shape() && AllTidy(Contents())
      ensures Index(hash, Contents(), rel - set k | k in client.profile.topics :: (k, client))
    {
      var topics := client.profile.topics;
      var n := 0;
      assert Without(rel, client, topics[..0]) == rel;
      while n < |topics|
        invariant 0 <= n <= |topics| && Shape() && AllTidyBut(Contents(), client.profile.id)
        invariant Index(hash, Contents(), Without(rel, client, topics[..n]))
      {
        RemoveKey(client, topics[n], Without(rel, client, topics[..n]));
        WithoutMore(rel, client, topics, n);
        n := n + 1;
      }
      assert topics[..n] == topics;
      assert Without(rel, client, topics) == rel - set k | k in topics :: (k, client);
      TidyAgain(hash, Contents(), Without(rel, client, topics), client.profile.id);
    }

    /** The last part of an unregistration but for the release of the quota. */
    method Detach(client: Client)
      requires Shape() && Index(hash, Contents(), Flat(live)) && AllTidy(Contents())
      requires UniqueIds(live) && client in live
      modifies this`live, shards
      ensures Shape() && Index(hash, Contents(), Flat(live)) && AllTidy(Contents())
      ensures live == old(live) - {client}
    {
      RemoveKeys(client, Flat(live));
      FlatLeaves(live, client);
      live := live - {client};
    }

    /** Everything that the winner of the swap does. */
    method Retire(client: Client)
      requires Consistent() && client in live
      modifies this`live, shards, quotas, client`closed
      ensures Consistent() && live == old(live) - {client} && client.closed
    {
      client.Close();
      CountsLeave(quotas.View(), live, client);
      Detach(client);
      quotas.Release(client.profile.tenant, client.profile.user);
    }

    /** Only clients that were registered are unregistered; a second call does nothing. */
    method Unregister(client: Client?)
      requires Valid() && (client != null ==> client in live || client.unregistered)
      modifies this`live, shards, quotas, if client == null then {} else {client}
      ensures Valid() && (old(Limited()) ==> Limited())
      ensures client != null && !old(client.unregistered) ==>
        live == old(live) - {client} && client.closed && client.unregistered && client.send == old(client.send)
      ensures client == null || old(client.unregistered) ==>
        live == old(live) && Contents() == old(Contents()) && quotas.View() == old(quotas.View())
      ensures client != null && old(client.unregistered) ==> unchanged(client)
    {
      if client == null {
        return;
      }
      var first := client.MarkUnregistered();
      if !first {
        return;
      }
      if Limited() {
        LimitsShrink(limits, live, live - {client});
      }
      Retire(client);
    }

    method HasSubscribers(routingKey: string) returns (r: bool)
      requires Consistent()
      ensures r <==> Subscribers(Flat(live), routingKey) != {}
    {
      ghost var sh := Contents()[ShardIndex(hash, routingKey, |shards|)];
      SubscribersMean(hash, Contents(), Flat(live), routingKey);
      var shard := ShardOf(routingKey);
      assert sh == shard.View();
      r := shard.HasSubscribers(routingKey);
      assert sh == shard.View();
    }

    /** The subscribers of a key, each of them once. */
    method Recipients(routingKey: string) returns (r: seq<Client>)
      requires Consistent()
      ensures Distinct(r)
      ensures forall c :: c in r <==> c in Subscribers(Flat(live), routingKey)
    {
      SubscribersMean(hash, Contents(), Flat(live), routingKey);
      var shard := ShardOf(routingKey);
      assert Contents()[ShardIndex(hash, routingKey, |shards|)] == shard.View();
      r := shard.GetRecipients(routingKey);
    }

    /** Runs the builder once if the key has a subscriber and not at all otherwise; then offers
        the frame to exactly the subscribers, once to each, and counts those that accept. */
    method ConditionalBroadcast(routingKey: string, builder: FrameBuilder) returns (delivered: nat, err: Option<string>)
      requires Valid()
      modifies live`send, live`closed, builder
      ensures Valid()
      ensures var subs := Subscribers(Flat(live), routingKey);
        && builder.runs == old(builder.runs) + (if subs != {} then 1 else 0)
        && err == (if subs != {} && builder.outcome.BuildFailed? then Some(builder.outcome.error) else None)
        && Queues(live) == Broadcasted(old(Queues(live)), subs, builder.outcome)
        && delivered == Deliveries(old(Queues(live)), subs, builder.outcome)
    {
      var recipients := Recipients(routingKey);
      delivered, err := BuildAndFanout(recipients, builder, live, Subscribers(Flat(live), routingKey));
    }

    /** Shard `i` lists exactly the clients that have a key there. */
    ghost predicate ListedAt(i: nat, all: set<Client>)
      requires i < |shards| && Partitioned(|shards|)
      reads shards[i]
    {
      && shards[i].Valid()
      && (forall id :: id in shards[i].clients ==> shards[i].clients[id] in all)
      && (forall c :: c in all ==> (HostedAt(hash, |shards|, c, i) <==> S.Listing(shards[i].View(), c.profile.id) == Some(c)))
    }

    ghost predicate Listed(all: set<Client>)
      requires Partitioned(|shards|)
      reads shards
    {
      forall i :: 0 <= i < |shards| ==> ListedAt(i, all)
    }

    lemma ListedWhenConsistent()
      requires Consistent()
      ensures Listed(live)
    {
      forall i | 0 <= i < |shards| ensures ListedAt(i, live) {
        assert Contents()[i] == shards[i].View();
        forall id | id in shards[i].clients ensures shards[i].clients[id] in live {
          ListedMeans(hash, Contents(), Flat(live), i, shards[i].clients[id]);
        }
        forall c | c in live ensures HostedAt(hash, |shards|, c, i) <==> S.Listing(shards[i].View(), c.profile.id) == Some(c) {
          ListedMeans(hash, Contents(), Flat(live), i, c);
          if HostedAt(hash, |shards|, c, i) {
            var k :| k in c.profile.topics && ShardIndex(hash, k, |shards|) == i;
            assert (k, c) in Flat(live);
          }
        }
      }
    }

    /** The clients in `all` that shard `i` hosts. */
    ghost function HostedBy(i: nat, all: set<Client>): set<Client>
      requires Partitioned(|shards|)
    {
      set c | c in all && HostedAt(hash, |shards|, c, i)
    }

    method BeatShard(i: nat, frame: Frame, ghost all: set<Client>)
      requires Partitioned(|shards|) && i < |shards| && Listed(all)
      modifies all`send, all`closed
      ensures Queues(all) == Offered(old(Queues(all)), HostedBy(i, all), frame)
    {
      assert ListedAt(i, all);
      var clients := shards[i].GetAllClients();
      var _ := Fanout(clients, frame, all, HostedBy(i, all));
    }

    /** All shards in turn; `plan(i)` are the queues after the shards below `i`. */
    method BeatAll(frame: Frame, ghost all: set<Client>, ghost plan: nat -> map<Client, Queue>)
      requires Partitioned(|shards|) && Listed(all) && Queues(all) == plan(0)
      requires forall i: nat :: i < |shards| ==> Offered(plan(i), HostedBy(i, all), frame) == plan(i + 1)
      modifies all`send, all`closed
      ensures Queues(all) == plan(|shards|)
    {
      var i := 0;
      while i < |shards|
        invariant 0 <= i <= |shards|
        invariant Queues(all) == plan(i)
      {
        BeatShard(i, frame, all);
        i := i + 1;
      }
    }

    /** Every client is offered the frame exactly once for each shard that hosts its keys. */
    method BroadcastHeartbeat(frame: Frame)
      requires Valid()
      modifies live`send, live`closed
      ensures Valid()
      ensures Queues(live) == Beaten(hash, |shards|, old(Queues(live)), frame, |shards|)
    {
      ListedWhenConsistent();
      ghost var start := Queues(live);
      ghost var plan := (i: nat) => Beaten(hash, |shards|, start, frame, i);
      BeatStart(hash, |shards|, start, frame);
      forall i: nat | i < |shards| ensures Offered(plan(i), HostedBy(i, live), frame) == plan(i + 1) {
        BeatStep(hash, |shards|, start, frame, i, HostedBy(i, live));
      }
      BeatAll(frame, live, plan);
    }

    /** Of the clients in `all`, exactly those in `gone` are marked, exactly those and the ones
        in `shut` are closed, and the counters count the others. */
    ghost predicate Revoking(all: set<Client>, shut: set<Client>, gone: set<Client>)
      reads quotas, all
    {
      && (forall c :: c in all ==> (c.unregistered <==> c in gone) && (c.closed <==> c in shut || c in gone))
      && Counts(quotas.View(), Profiles(all - gone))
    }

    method Revoke(c: Client, ghost all: set<Client>, ghost shut: set<Client>, ghost gone: set<Client>) returns (first: bool)
      requires c in all && UniqueIds(all) && Revoking(all, shut, gone)
      modifies quotas, c`closed, c`unregistered
      ensures first <==> c !in gone
      ensures Revoking(all, shut, gone + {c})
    {
      first := c.MarkUnregistered();
      if first {
        CountsLeave(quotas.View(), all - gone, c);
        assert all - gone - {c} == all - (gone + {c});
        c.Close();
        quotas.Release(c.profile.tenant, c.profile.user);
      } else {
        assert gone + {c} == gone;
      }
    }

    /** Marks, closes and releases the clients of a sweep that nobody has marked before. */
    method RevokeAll(matched: seq<Client>, ghost all: set<Client>, ghost shut: set<Client>, ghost gone: set<Client>)
      returns (n: nat, ghost now: set<Client>)
      requires (forall c :: c in matched ==> c in all) && UniqueIds(all) && Revoking(all, shut, gone)
      modifies quotas, all`closed, all`unregistered
      ensures n == |now| - |gone| && Revoking(all, shut, now)
      ensures forall c :: c in now <==> c in gone || c in matched
    {
      n, now := 0, gone;
      var i := 0;
      while i < |matched|
        invariant 0 <= i <= |matched| && n == |now| - |gone| && Revoking(all, shut, now)
        invariant forall c :: c in now <==> c in gone || c in matched[..i]
      {
        ghost var before := now;
        var first := Revoke(matched[i], all, shut, now);
        now := now + {matched[i]};
        if first {
          n := n + 1;
        } else {
          assert now == before;
        }
        assert matched[..i + 1] == matched[..i] + [matched[i]];
        i := i + 1;
      }
      assert matched[..i] == matched;
    }

    /** The entries that an invalidation of the user leaves once it has swept the shards below
        `i`. */
    ghost function Left(rel: Relation, tenant: string, user: string, i: nat): Relation
      requires Partitioned(|shards|)
    {
      set p | p in rel && !(Owned(p.1, tenant, user) && ShardIndex(hash, p.0, |shards|) < i)
    }

    /** One shard of an invalidation: it finds exactly the user's clients that have a key there
        and takes all their entries from the shard. */
    method SweepShard(i: nat, tenantID: string, userID: string, ghost rel: Relation) returns (matched: seq<Client>)
      requires Shape() && i < |shards|
      requires Index(hash, Contents(), Left(rel, tenantID, userID, i)) && AllTidy(Contents())
      modifies shards
      ensures Shape() && Index(hash, Contents(), Left(rel, tenantID, userID, i + 1)) && AllTidy(Contents())
      ensures forall c :: c in matched <==>
        Owned(c, tenantID, userID) && exists p :: p in rel && p.1 == c && ShardIndex(hash, p.0, |shards|) == i
    {
      ghost var before := Contents();
      ghost var cur := Left(rel, tenantID, userID, i);
      ghost var ids := IdsOf(shards[i].clients, tenantID, userID);
      SweepIndex(hash, before, cur, i, ids);
      SweepTidy(before[i], ids);
      matched := shards[i].InvalidateUser(tenantID, userID);
      assert Contents() == before[i := S.RemoveAll(before[i], ids)];
      SweepLeaves(before, rel, tenantID, userID, i);
    }

    lemma SweepLeaves(before: Views, rel: Relation, tenant: string, user: string, i: nat)
      requires Partitioned(|shards|) && |before| == |shards| && i < |before|
      requires Index(hash, before, Left(rel, tenant, user, i)) && AllTidy(before)
      ensures var ids := IdsOf(before[i].clients, tenant, user);
        Left(rel, tenant, user, i + 1) ==
          set p | p in Left(rel, tenant, user, i) && !(ShardIndex(hash, p.0, |before|) == i && p.1.profile.id in ids)
      ensures forall c: Client :: S.Listing(before[i], c.profile.id) == Some(c) && Owned(c, tenant, user) <==>
        Owned(c, tenant, user) && exists p :: p in rel && p.1 == c && ShardIndex(hash, p.0, |shards|) == i
    {
    }

    /** `gone` are the user's clients found in the shards below `i`. */
    ghost predicate Found(all: set<Client>, tenant: string, user: string, i: nat, gone: set<Client>)
      requires Partitioned(|shards|)
    {
      && gone <= all
      && forall c :: c in all ==>
           (c in gone <==> Owned(c, tenant, user) && exists p :: p in Flat(all) && p.1 == c && ShardIndex(hash, p.0, |shards|) < i)
    }

    lemma FoundMore(all: set<Client>, tenant: string, user: string, i: nat, gone: set<Client>, matched: seq<Client>, now: set<Client>)
      requires Partitioned(|shards|) && Found(all, tenant, user, i, gone)
      requires forall c :: c in now <==> c in gone || c in matched
      requires forall c :: c in matched <==>
        Owned(c, tenant, user) && exists p :: p in Flat(all) && p.1 == c && ShardIndex(hash, p.0, |shards|) == i
      ensures Found(all, tenant, user, i + 1, now)
    {
    }

    lemma FoundAll(all: set<Client>, tenant: string, user: string, gone: set<Client>)
      requires Partitioned(|shards|) && Found(all, tenant, user, |shards|, gone)
      ensures gone == set c | c in all && Owned(c, tenant, user) && c.profile.topics != []
      ensures Left(Flat(all), tenant, user, |shards|) == Flat(all - gone)
    {
      forall c | c in all && c.profile.topics != [] ensures (c.profile.topics[0], c) in Flat(all) {
      }
    }

    /** One round of an invalidation. */
    method SweepAndRevoke(i: nat, tenantID: string, userID: string, ghost all: set<Client>, ghost shut: set<Client>, ghost gone: set<Client>)
      returns (n: nat, ghost now: set<Client>)
      requires i < |shards| && UniqueIds(all) && Shape()
      requires Index(hash, Contents(), Left(Flat(all), tenantID, userID, i)) && AllTidy(Contents())
      requires Revoking(all, shut, gone) && Found(all, tenantID, userID, i, gone)
      modifies shards, quotas, all`closed, all`unregistered
      ensures Shape() && Index(hash, Contents(), Left(Flat(all), tenantID, userID, i + 1)) && AllTidy(Contents())
      ensures n == |now| - |gone| && Revoking(all, shut, now) && Found(all, tenantID, userID, i + 1, now)
    {
      var matched := SweepShard(i, tenantID, userID, Flat(all));
      n, now := RevokeAll(matched, all, shut, gone);
      FoundMore(all, tenantID, userID, i, gone, matched, now);
    }

    /** All rounds of an invalidation. */
    method SweepAll(tenantID: string, userID: string, ghost all: set<Client>, ghost shut: set<Client>)
      returns (closedCount: nat, ghost gone: set<Client>)
      requires UniqueIds(all) && Shape() && Index(hash, Contents(), Flat(all)) && AllTidy(Contents())
      requires Revoking(all, shut, {})
      modifies shards, quotas, all`closed, all`unregistered
      ensures Shape() && Index(hash, Contents(), Flat(all - gone)) && AllTidy(Contents())
      ensures closedCount == |gone| && Revoking(all, shut, gone)
      ensures gone == set c | c in all && Owned(c, tenantID, userID) && c.profile.topics != []
    {
      closedCount, gone := 0, {};
      assert Left(Flat(all), tenantID, userID, 0) == Flat(all);
      var i := 0;
      while i < |shards|
        invariant 0 <= i <= |shards|
        invariant Shape() && Index(hash, Contents(), Left(Flat(all), tenantID, userID, i)) && AllTidy(Contents())
        invariant Revoking(all, shut, gone) && closedCount == |gone| && Found(all, tenantID, userID, i, gone)
      {
        var n, now := SweepAndRevoke(i, tenantID, userID, all, shut, gone);
        closedCount := closedCount + n;
        gone := now;
        i := i + 1;
      }
      FoundAll(all, tenantID, userID, gone);
    }

    /** An invalidation but for what it does to the limits. */
    method RevokeUser(tenantID: string, userID: string) returns (closedCount: nat, ghost gone: set<Client>)
      requires Valid()
      modifies this`live, shards, quotas, live`closed, live`unregistered
      ensures Valid() && live == old(live) - gone && closedCount == |gone|
      ensures forall c :: c in gone <==> c in old(live) && Owned(c, tenantID, userID) && c.profile.topics != []
      ensures (forall c :: c in gone ==> c.closed && c.unregistered) && (forall c :: c in live ==> c.closed == old(c.closed))
    {
      ghost var all := live;
      ghost var shut := set c | c in all && c.closed;
      assert all - {} == all;
      closedCount, gone := SweepAll(tenantID, userID, all, shut);
      live := all - gone;
    }

    /** Revokes every connection of a user that is under some key; each is counted once, in
        however many shards it is found, and no other client's entries are touched. */
    method InvalidateUser(tenantID: string, userID: string) returns (closedCount: nat)
      requires Valid()
      modifies this`live, shards, quotas, live`closed, live`unregistered
      ensures Valid() && (old(Limited()) ==> Limited())
      ensures var gone := set c | c in old(live) && c.profile.tenant == tenantID && c.profile.user == userID && c.profile.topics != [];
        && live == old(live) - gone && closedCount == |gone|
        && (forall c :: c in gone ==> c.closed && c.unregistered)
        && (forall c :: c in live ==> c.closed == old(c.closed))
    {
      ghost var all, gone := live, {};
      closedCount, gone := RevokeUser(tenantID, userID);
      assert gone == set c | c in old(live) && c.profile.tenant == tenantID && c.profile.user == userID && c.profile.topics != [];
      if old(Limited()) {
        LimitsShrink(limits, all, live);
      }
    }

    /** Closes the clients of a snapshot, and no others. */
    method CloseEach(clients: seq<Client>, ghost all: set<Client>)
      requires forall c :: c in clients ==> c in all
      modifies all`closed
      ensures forall c :: c in all ==> c.closed == (old(c.closed) || c in clients)
    {
      var j := 0;
      while j < |clients|
        invariant 0 <= j <= |clients|
        invariant forall c :: c in all ==> c.closed == (old(c.closed) || c in clients[..j])
      {
        assert clients[..j + 1] == clients[..j] + [clients[j]];
        clients[j].Close();
        j := j + 1;
      }
      assert clients[..j] == clients;
    }

    /** Closes every client that has a key, once; later calls do nothing.  Registered clients
        stay in the index until their own handlers unregister them. */
    method Close()
      requires Valid()
      modifies this`closed, live`closed
      ensures Valid() && closed
      ensures forall c :: c in live ==> c.closed == (old(c.closed) || (!old(closed) && c.profile.topics != []))
    {
      if closed {
        return;
      }
      closed := true;
      ListedWhenConsistent();
      CloseListed(live);
      forall c | c in live && c.profile.topics != [] ensures Hosts(hash, |shards|, c, |shards|) != {} {
        HostedSomewhere(hash, |shards|, c);
      }
    }

    method CloseListed(ghost all: set<Client>)
      requires Partitioned(|shards|) && Listed(all)
      modifies all`closed
      ensures forall c :: c in all ==> c.closed == (old(c.closed) || Hosts(hash, |shards|, c, |shards|) != {})
    {
      var i := 0;
      while i < |shards|
        invariant 0 <= i <= |shards|
        invariant forall c :: c in all ==> c.closed == (old(c.closed) || Hosts(hash, |shards|, c, i) != {})
      {
        assert ListedAt(i, all);
        var clients := shards[i].GetAllClients();
        CloseEach(clients, all);
        forall c | c in all
          ensures Hosts(hash, |shards|, c, i + 1) != {} <==> Hosts(hash, |shards|, c, i) != {} || c in clients
        {
          HostsGrow(hash, |shards|, c, i);
        }
        i := i + 1;
      }
    }
  }

  /** A hub of two shards with one client that has a key in each of them. */
  method HubWithTwoKeys(hash: HashFunction) returns (hub: Hub, client: Client)
    ensures fresh(hub) && fresh(client) && hub.Valid() && hub.live == {client}
    ensures |hub.shards| == 2 && hub.hash == hash
    ensures client.profile.topics == ["a", "b"] && client.capacity == 2 && client.View() == Queue([], false)
  {
    hub := new Hub(2, Limits(0, 0, 0, 0), hash);
    client := new Client(Profile("id", "t", "u", ["a", "b"]), 2, "");
    var err := hub.Register(client, ["a", "b"]);
  }

  /** A client with keys in two shards gets one heartbeat twice. */
  method HeartbeatTwice(frame: Frame) returns (client: Client)
    ensures client.send == [frame, frame]
  {
    var hash: HashFunction := key => if key == "a" then 0 else 1;
    var hub;
    hub, client := HubWithTwoKeys(hash);
    ghost var queues := Queues(hub.live);
    TwoHosts(hash, client);
    HeartbeatCopies(hash, 2, queues, frame, client);
    hub.BroadcastHeartbeat(frame);
    assert Queues(hub.live)[client] == client.View();
    assert [] + Copies(frame, 2) == [frame, frame];
  }

  lemma TwoHosts(hash: HashFunction, c: Client)
    requires hash("a") == 0 && hash("b") == 1 && c.profile.topics == ["a", "b"]
    ensures |Hosts(hash, 2, c, 2)| == 2
  {
    assert Hosts(hash, 2, c, 2) == {0, 1} by {
      assert "a" in c.profile.topics && "b" in c.profile.topics;
      assert ShardIndex(hash, "a", 2) == 0 && ShardIndex(hash, "b", 2) == 1;
    }
  }
}
