/** Admission of clients and handling of events on top of the hub: who receives what. */
module Gateway {
  import opened Options
  import opened Hashing
  import opened Quota
  import opened ClientQueue
  import opened Clients
  import opened HubIndex
  import opened HubShard
  import opened Hub
  import opened Text
  import Router

  /** What a validated ticket allows. */
  datatype Capability = Capability(tenantID: string, appID: string, userID: string, topics: seq<string>)

  /** An event from the bus; the key that the consumer computes for it is not part of what the
      bus delivers. */
  datatype Event = Event(schema: string, eventType: string, tenantID: string, appID: string,
                         topicID: string, userID: string, routingKey: string)

  const SUPPORTED_SCHEMA := "realtime-event-v1"

  predicate IsSchemaSupported(ev: Event) {
    ev.schema == "" || ev.schema == SUPPORTED_SCHEMA
  }

  function KeyOf(ev: Event): string {
    Router.BuildKey(ev.tenantID, ev.appID, ev.topicID)
  }

  ghost function KeysOf(cap: Capability): seq<string> {
    seq(|cap.topics|, i requires 0 <= i < |cap.topics| => Router.BuildKey(cap.tenantID, cap.appID, cap.topics[i]))
  }

  /** One of the keys that the capability is registered under is the key of the event. */
  ghost predicate Reaches(ev: Event, cap: Capability) {
    KeyOf(ev) in KeysOf(cap)
  }

  /** The capability is for the event's tenant and app, up to sanitization, and has its topic. */
  ghost predicate Entitled(cap: Capability, ev: Event) {
    && Router.SanitizeKeyPart(cap.tenantID) == Router.SanitizeKeyPart(ev.tenantID)
    && Router.SanitizeKeyPart(cap.appID) == Router.SanitizeKeyPart(ev.appID)
    && ev.topicID in cap.topics
  }

  /** Between safe names, keys route an event to exactly the capabilities that are entitled. */
  lemma RoutingIsolation(ev: Event, cap: Capability)
    requires Router.Safe(ev.tenantID, ev.appID) && Router.Safe(cap.tenantID, cap.appID)
    ensures Reaches(ev, cap) <==> Entitled(cap, ev)
  {
    forall i | 0 <= i < |cap.topics|
      ensures KeysOf(cap)[i] == KeyOf(ev) <==>
        && Router.SanitizeKeyPart(cap.tenantID) == Router.SanitizeKeyPart(ev.tenantID)
        && Router.SanitizeKeyPart(cap.appID) == Router.SanitizeKeyPart(ev.appID)
        && cap.topics[i] == ev.topicID
    {
      Router.BuildKeyInjective(cap.tenantID, cap.appID, cap.topics[i], ev.tenantID, ev.appID, ev.topicID);
    }
  }

  /** Without safe names it fails: a ticket of the tenant "{app}" reaches the events of another. */
  lemma IsolationNeedsSafeNames()
    ensures var cap, ev := Capability("{app}", "x", "u", ["p"]), Event("", "t", "x", "x", "p", "u", "");
      Reaches(ev, cap) && !Entitled(cap, ev)
  {
    var cap := Capability("{app}", "x", "u", ["p"]);
    assert !Has("x", "{app}") by {
      assert forall i: nat :: !Here("x", "{app}", i);
    }
    Router.PlaceholderTenantCollides("x", "p");
    assert KeysOf(cap)[0] == Router.BuildKey("{app}", "x", "p");
    Router.NoColonSanitize("{app}");
    Router.NoColonSanitize("x");
  }

  ghost predicate GrantedTo(c: Client, cap: Capability) {
    c.profile.tenant == cap.tenantID && c.profile.user == cap.userID
  }

  /** Every live client was admitted with a capability and is under its keys. */
  ghost predicate Granted(live: set<Client>, caps: map<Client, Capability>) {
    forall c :: c in live ==> c in caps && c.profile.topics == KeysOf(caps[c]) && GrantedTo(c, caps[c])
  }

  /** The clients that the key of an event routes to. */
  ghost function Addressees(live: set<Client>, caps: map<Client, Capability>, ev: Event): set<Client>
    requires Granted(live, caps)
  {
    set c | c in live && Reaches(ev, caps[c])
  }

  /** The key that an event carries along does not change where it goes. */
  lemma SameAddressees(live: set<Client>, caps: map<Client, Capability>, ev: Event, key: string)
    requires Granted(live, caps)
    ensures Addressees(live, caps, ev.(routingKey := key)) == Addressees(live, caps, ev)
  {
  }

  lemma SubscribersAreAddressees(live: set<Client>, caps: map<Client, Capability>, ev: Event)
    requires Granted(live, caps)
    ensures Subscribers(Flat(live), KeyOf(ev)) == Addressees(live, caps, ev)
  {
    forall c ensures c in Subscribers(Flat(live), KeyOf(ev)) <==> c in Addressees(live, caps, ev) {
      if c in Addressees(live, caps, ev) {
        assert (KeyOf(ev), c) in Flat(live);
      }
    }
  }

  /** The frame was built for an event that reaches the capability, or it is a heartbeat. */
  ghost predicate Rightful(f: Frame, cap: Capability, built: set<(Event, Frame)>, beats: set<Frame>) {
    f in beats || exists b :: b in built && b.1 == f && Reaches(b.0, cap)
  }

  /** The frame was built for an event that the capability entitles to, or it is a heartbeat. */
  ghost predicate Due(f: Frame, cap: Capability, built: set<(Event, Frame)>, beats: set<Frame>) {
    f in beats || exists b :: b in built && b.1 == f && Entitled(cap, b.0)
  }

  /** The names in the capability and in all events are safe. */
  ghost predicate SafeNames(cap: Capability, built: set<(Event, Frame)>) {
    && Router.Safe(cap.tenantID, cap.appID)
    && forall b :: b in built ==> Router.Safe(b.0.tenantID, b.0.appID)
  }

  /** Between safe names, a rightful frame is one that the capability entitles to. */
  lemma RightfulIsDue(f: Frame, cap: Capability, built: set<(Event, Frame)>, beats: set<Frame>)
    requires SafeNames(cap, built)
    ensures Rightful(f, cap, built, beats) <==> Due(f, cap, built, beats)
  {
    forall b | b in built ensures Reaches(b.0, cap) <==> Entitled(cap, b.0) {
      RoutingIsolation(b.0, cap);
    }
  }

  /** The frames that wait for some clients. */
  ghost function Sends(clients: set<Client>): map<Client, seq<Frame>>
    reads clients
  {
    map c | c in clients :: c.send
  }

  /** No queue holds a frame of an event that does not reach its client. */
  ghost predicate Isolated(sends: map<Client, seq<Frame>>, caps: map<Client, Capability>, built: set<(Event, Frame)>, beats: set<Frame>)
    requires sends.Keys <= caps.Keys
  {
    forall c, f :: c in sends && f in sends[c] ==> Rightful(f, caps[c], built, beats)
  }

  /** What an event adds to the frames that may be around. */
  ghost function Yield(ev: Event, outcome: Outcome): set<(Event, Frame)> {
    if outcome.Built? then {(ev, outcome.frame)} else {}
  }

  lemma OfferHolds(q: Queue, capacity: nat, policy: string, frame: Frame)
    ensures forall f :: f in Offer(q, capacity, policy, frame).0.send ==> f in q.send || f == frame
  {
  }

  lemma {:induction false} OfferTimesHolds(q: Queue, capacity: nat, policy: string, frame: Frame, n: nat)
    ensures forall f :: f in OfferTimes(q, capacity, policy, frame, n).send ==> f in q.send || f == frame
  {
    if n == 0 {
    } else {
      OfferTimesHolds(q, capacity, policy, frame, n - 1);
      OfferHolds(OfferTimes(q, capacity, policy, frame, n - 1), capacity, policy, frame);
    }
  }

  /** The queues of the live clients among those of all clients ever admitted: the others have
      not changed. */
  ghost predicate OnlyLive(live: set<Client>, before: map<Client, seq<Frame>>, queues: map<Client, Queue>,
                           after: map<Client, seq<Frame>>, queues': map<Client, Queue>)
  {
    && queues.Keys == queues'.Keys == live && before.Keys == after.Keys
    && forall c :: c in after ==>
         if c in live then before[c] == queues[c].send && after[c] == queues'[c].send else after[c] == before[c]
  }

  /** A broadcast puts the frame of an event only where the event reaches. */
  lemma BroadcastIsolated(live: set<Client>, caps: map<Client, Capability>, built: set<(Event, Frame)>, beats: set<Frame>,
                          ev: Event, outcome: Outcome, before: map<Client, seq<Frame>>, queues: map<Client, Queue>,
                          after: map<Client, seq<Frame>>, queues': map<Client, Queue>)
    requires Granted(live, caps) && before.Keys == caps.Keys && Isolated(before, caps, built, beats)
    requires OnlyLive(live, before, queues, after, queues')
    requires queues' == Broadcasted(queues, Addressees(live, caps, ev), outcome)
    ensures Isolated(after, caps, built + Yield(ev, outcome), beats)
  {
    var now := built + Yield(ev, outcome);
    forall c, f | c in after && f in after[c] ensures Rightful(f, caps[c], now, beats) {
      if f in before[c] {
        assert Rightful(f, caps[c], built, beats);
      } else {
        OfferHolds(queues[c], c.capacity, c.policy, outcome.frame);
        assert (ev, outcome.frame) in now;
      }
    }
  }

  lemma HeartbeatIsolated(live: set<Client>, caps: map<Client, Capability>, built: set<(Event, Frame)>, beats: set<Frame>,
                          hash: HashFunction, count: nat, frame: Frame, before: map<Client, seq<Frame>>, queues: map<Client, Queue>,
                          after: map<Client, seq<Frame>>, queues': map<Client, Queue>)
    requires Partitioned(count) && before.Keys == caps.Keys && Isolated(before, caps, built, beats)
    requires OnlyLive(live, before, queues, after, queues') && queues' == Beaten(hash, count, queues, frame, count)
    ensures Isolated(after, caps, built, beats + {frame})
  {
    forall c, f | c in after && f in after[c] ensures Rightful(f, caps[c], built, beats + {frame}) {
      if c in live {
        OfferTimesHolds(queues[c], c.capacity, c.policy, frame, |Hosts(hash, count, c, count)|);
      }
      assert f in before[c] ==> Rightful(f, caps[c], built, beats);
    }
  }

  /** A newcomer with an empty queue changes nothing for the others. */
  lemma NewcomerKeeps(live: set<Client>, caps: map<Client, Capability>, built: set<(Event, Frame)>, beats: set<Frame>,
                      before: map<Client, seq<Frame>>, c: Client, cap: Capability, live': set<Client>, after: map<Client, seq<Frame>>)
    requires Granted(live, caps) && before.Keys == caps.Keys && Isolated(before, caps, built, beats)
    requires c !in caps && c.profile.topics == KeysOf(cap) && GrantedTo(c, cap)
    requires live' <= live + {c} && after == before[c := []]
    ensures Granted(live', caps[c := cap]) && Isolated(after, caps[c := cap], built, beats)
  {
  }

  class Gateway {
    const hub: Hub
    const invalidationType: string
    const queueSize: int
    const slowPolicy: string
    /** What each client was admitted with, also after it has gone. */
    ghost var caps: map<Client, Capability>
    /** The frames that events yield, each with its event. */
    ghost var built: set<(Event, Frame)>
    ghost var beats: set<Frame>

    /** Live clients are registered as their capabilities say, and no queue holds a frame that
        does not reach its client: also no queue of a client that is not live any more. */
    ghost predicate Valid()
      reads this, hub, hub.shards, hub.quotas, hub.live, caps.Keys
    {
      && hub.Valid()
      && Granted(hub.live, caps)
      && Isolated(Sends(caps.Keys), caps, built, beats)
    }

    constructor (hub: Hub, invalidationType: string, queueSize: int, slowPolicy: string)
      requires hub.Valid() && hub.live == {}
      ensures Valid() && this.hub == hub && caps == map[]
      ensures this.invalidationType == invalidationType && this.queueSize == queueSize && this.slowPolicy == slowPolicy
    {
      this.hub := hub;
      this.invalidationType := invalidationType;
      this.queueSize := queueSize;
      this.slowPolicy := slowPolicy;
      caps := map[];
      built := {};
      beats := {};
    }

    method BuildKeys(cap: Capability) returns (routingKeys: seq<string>)
      ensures routingKeys == KeysOf(cap)
    {
      routingKeys := [];
      for i := 0 to |cap.topics|
        invariant routingKeys == KeysOf(cap)[..i]
      {
        routingKeys := routingKeys + [Router.BuildKey(cap.tenantID, cap.appID, cap.topics[i])];
      }
    }

    /** Registers a new client under the keys of its capability, or changes nothing. */
    method Enroll(client: Client, cap: Capability, routingKeys: seq<string>) returns (err: Option<HubError>)
      requires hub.Valid() && routingKeys == client.profile.topics && GrantedTo(client, cap)
      requires !client.unregistered && forall c :: c in hub.live ==> c.profile.id != client.profile.id
      modifies hub`live, hub.shards, hub.quotas
      ensures hub.Valid()
      ensures err == Refusal(hub.closed, hub.limits, old(hub.quotas.View()), cap.tenantID, cap.userID, |routingKeys|)
      ensures hub.live == if err.None? then old(hub.live) + {client} else old(hub.live)
    {
      err := hub.Register(client, routingKeys);
    }

    /** The same, with the capability noted. */
    method Join(client: Client, cap: Capability, routingKeys: seq<string>) returns (err: Option<HubError>)
      requires Valid() && client !in caps && routingKeys == client.profile.topics == KeysOf(cap) && GrantedTo(client, cap)
      requires client.send == [] && !client.unregistered
      requires forall c :: c in hub.live ==> c.profile.id != client.profile.id
      modifies this`caps, hub`live, hub.shards, hub.quotas
      ensures Valid() && caps == old(caps)[client := cap]
      ensures err == Refusal(hub.closed, hub.limits, old(hub.quotas.View()), cap.tenantID, cap.userID, |routingKeys|)
      ensures hub.live == if err.None? then old(hub.live) + {client} else old(hub.live)
    {
      ghost var live, was, before := hub.live, caps, Sends(caps.Keys);
      caps := caps[client := cap];
      err := Enroll(client, cap, routingKeys);
      assert Sends(caps.Keys) == before[client := []];
      NewcomerKeeps(live, was, built, beats, before, client, cap, hub.live, Sends(caps.Keys));
    }

    /** Admits a client under the keys of its capability, or refuses and changes nothing. */
    method Admit(cap: Capability, connectionID: string) returns (client: Client?, err: Option<HubError>)
      requires Valid() && forall c :: c in hub.live ==> c.profile.id != connectionID
      modifies this`caps, hub`live, hub.shards, hub.quotas
      ensures Valid()
      ensures err == Refusal(hub.closed, hub.limits, old(hub.quotas.View()), cap.tenantID, cap.userID, |cap.topics|)
      ensures client != null <==> err.None?
      ensures client != null ==> fresh(client) && hub.live == old(hub.live) + {client} && caps == old(caps)[client := cap]
      ensures client != null ==>
        && client.profile == Profile(connectionID, cap.tenantID, cap.userID, KeysOf(cap)) && client.View() == Queue([], false)
        && client.capacity == (if queueSize <= 0 then 32 else queueSize)
        && client.policy == (if slowPolicy == "" then "disconnect" else slowPolicy)
      ensures client == null ==> hub.live == old(hub.live)
    {
      err := hub.CheckLimits(cap.tenantID, cap.userID, |cap.topics|);
      if err.Some? {
        return null, err;
      }
      var routingKeys := BuildKeys(cap);
      var made := new Client(Profile(connectionID, cap.tenantID, cap.userID, routingKeys), queueSize, slowPolicy);
      err := Join(made, cap, routingKeys);
      client := if err.None? then made else null;
    }

    /** The broadcast proper: its recipients are the clients that the event's key routes to, and
        no queue of another client in `all` changes. */
    method Broadcast(ev: Event, builder: FrameBuilder, ghost all: set<Client>, ghost sends: map<Client, seq<Frame>>,
                     ghost queues: map<Client, Queue>, ghost to: set<Client>)
      returns (delivered: nat, err: Option<string>)
      requires hub.Valid() && Granted(hub.live, caps) && (ev.routingKey == "" || ev.routingKey == KeyOf(ev))
      requires queues == Queues(hub.live) && to == Addressees(hub.live, caps, ev) && sends == Sends(all)
      modifies hub.live`send, hub.live`closed, builder
      ensures hub.Valid() && OnlyLive(hub.live, sends, queues, Sends(all), Queues(hub.live))
      ensures builder.runs == old(builder.runs) + (if to != {} then 1 else 0)
      ensures Queues(hub.live) == Broadcasted(queues, to, builder.outcome)
      ensures delivered == Deliveries(queues, to, builder.outcome)
      ensures err == if to != {} && builder.outcome.BuildFailed? then Some(builder.outcome.error) else None
    {
      var routingKey := ev.routingKey;
      if routingKey == "" {
        routingKey := KeyOf(ev);
      }
      SubscribersAreAddressees(hub.live, caps, ev);
      delivered, err := hub.ConditionalBroadcast(routingKey, builder);
    }

    /** The broadcast keeps isolation once its frame is noted. */
    method IsolatedBroadcast(ev: Event, builder: FrameBuilder, ghost was: set<(Event, Frame)>,
                             ghost queues: map<Client, Queue>, ghost to: set<Client>)
      returns (delivered: nat)
      requires hub.Valid() && Granted(hub.live, caps) && (ev.routingKey == "" || ev.routingKey == KeyOf(ev))
      requires Isolated(Sends(caps.Keys), caps, was, beats) && built == was + Yield(ev, builder.outcome)
      requires queues == Queues(hub.live) && to == Addressees(hub.live, caps, ev)
      modifies hub.live`send, hub.live`closed, builder
      ensures Valid()
      ensures builder.runs == old(builder.runs) + (if to != {} then 1 else 0)
      ensures Queues(hub.live) == Broadcasted(queues, to, builder.outcome)
      ensures delivered == Deliveries(queues, to, builder.outcome)
    {
      ghost var sends := Sends(caps.Keys);
      var err;
      delivered, err := Broadcast(ev, builder, caps.Keys, sends, queues, to);
      BroadcastIsolated(hub.live, caps, was, beats, ev, builder.outcome, sends, queues, Sends(caps.Keys), Queues(hub.live));
    }

    /** Handles one event from a lane. */
    method HandleEvent(ev: Event, builder: FrameBuilder) returns (delivered: nat)
      requires Valid() && (ev.routingKey == "" || ev.routingKey == KeyOf(ev))
      modifies this`built, hub.live`send, hub.live`closed, builder
      ensures Valid() && caps == old(caps)
      ensures var to := Addressees(hub.live, caps, ev);
        && builder.runs == old(builder.runs) + (if to != {} then 1 else 0)
        && Queues(hub.live) == Broadcasted(old(Queues(hub.live)), to, builder.outcome)
        && delivered == Deliveries(old(Queues(hub.live)), to, builder.outcome)
    {
      ghost var was, queues, to := built, Queues(hub.live), Addressees(hub.live, caps, ev);
      built := built + Yield(ev, builder.outcome);
      delivered := IsolatedBroadcast(ev, builder, was, queues, to);
    }

    /** The consumer's path for an ordinary event: one without subscribers never enters a lane.
        The shortcut is sound: the queues and the builder end up as if it had been handled.
        `accepted` tells whether the lane took the event; one that is full or closed drops it. */
    method Route(ev: Event, builder: FrameBuilder, accepted: bool)
      requires Valid() && ev.routingKey == ""
      modifies this`built, hub.live`send, hub.live`closed, builder
      ensures Valid() && caps == old(caps)
      ensures var to := Addressees(hub.live, caps, ev);
        && builder.runs == old(builder.runs) + (if accepted && to != {} then 1 else 0)
        && Queues(hub.live) == (if accepted then Broadcasted(old(Queues(hub.live)), to, builder.outcome) else old(Queues(hub.live)))
    {
      var routingKey := KeyOf(ev);
      SubscribersAreAddressees(hub.live, caps, ev);
      var wanted := hub.HasSubscribers(routingKey);
      if wanted && accepted {
        SameAddressees(hub.live, caps, ev, routingKey);
        var _ := HandleEvent(ev.(routingKey := routingKey), builder);
      }
    }

    /** The consumer's path for a revocation. */
    method Invalidate(tenantID: string, userID: string) returns (closedCount: nat)
      requires Valid()
      modifies hub`live, hub.shards, hub.quotas, hub.live`closed, hub.live`unregistered
      ensures Valid()
      ensures var gone := set c | c in old(hub.live) && c.profile.tenant == tenantID && c.profile.user == userID && c.profile.topics != [];
        hub.live == old(hub.live) - gone && closedCount == |gone|
      ensures forall c :: c in hub.live ==> c.View() == old(c.View())
    {
      ghost var before := Sends(caps.Keys);
      closedCount := hub.InvalidateUser(tenantID, userID);
      assert Sends(caps.Keys) == before;
    }

    method Beat(frame: Frame, ghost all: set<Client>, ghost sends: map<Client, seq<Frame>>,
                ghost queues: map<Client, Queue>, ghost after: map<Client, Queue>)
      requires hub.Valid() && queues == Queues(hub.live) && sends == Sends(all)
      requires after == Beaten(hub.hash, |hub.shards|, queues, frame, |hub.shards|)
      modifies hub.live`send, hub.live`closed
      ensures hub.Valid() && Queues(hub.live) == after && OnlyLive(hub.live, sends, queues, Sends(all), after)
    {
      hub.BroadcastHeartbeat(frame);
    }

    method IsolatedBeat(frame: Frame, ghost was: set<Frame>, ghost queues: map<Client, Queue>, ghost after: map<Client, Queue>)
      requires hub.Valid() && Granted(hub.live, caps) && queues == Queues(hub.live)
      requires Isolated(Sends(caps.Keys), caps, built, was) && beats == was + {frame}
      requires after == Beaten(hub.hash, |hub.shards|, queues, frame, |hub.shards|)
      modifies hub.live`send, hub.live`closed
      ensures Valid() && Queues(hub.live) == after
    {
      ghost var sends := Sends(caps.Keys);
      Beat(frame, caps.Keys, sends, queues, after);
      HeartbeatIsolated(hub.live, caps, built, was, hub.hash, |hub.shards|, frame, sends, queues, Sends(caps.Keys), after);
    }

    /** A heartbeat goes to the clients as the hub says and keeps isolation; `after` names the
        queues that it leaves. */
    method Heartbeat(frame: Frame, ghost after: map<Client, Queue>)
      requires Valid() && after == Beaten(hub.hash, |hub.shards|, Queues(hub.live), frame, |hub.shards|)
      modifies this`beats, hub.live`send, hub.live`closed
      ensures Valid() && Queues(hub.live) == after
    {
      ghost var was, queues := beats, Queues(hub.live);
      beats := beats + {frame};
      IsolatedBeat(frame, was, queues, after);
    }

    /** What the writer of a connection takes for its client, also while it drains the queue of
        a client just revoked, is rightful; between safe names it is a heartbeat or the frame of
        an event that the client's capability entitles to. */
    method Deliver(client: Client) returns (frame: Option<Frame>)
      requires Valid() && client in caps
      modifies client`send
      ensures Valid() && frame == (if old(client.send) == [] then None else Some(old(client.send)[0]))
      ensures frame.Some? ==> Rightful(frame.value, caps[client], built, beats)
      ensures frame.Some? && SafeNames(caps[client], built) ==> Due(frame.value, caps[client], built, beats)
    {
      ghost var before := Sends(caps.Keys);
      frame := client.Take();
      if frame.Some? {
        assert frame.value in before[client];
        if SafeNames(caps[client], built) {
          RightfulIsDue(frame.value, caps[client], built, beats);
        }
      }
      assert Sends(caps.Keys) == before[client := client.send];
    }

    /** The end of a connection, whoever ended it first. */
    method Disconnect(client: Client)
      requires Valid() && (client in hub.live || client.unregistered)
      modifies hub`live, hub.shards, hub.quotas, client
      ensures Valid() && hub.live == old(hub.live) - {client} && client.unregistered && client.send == old(client.send)
    {
      ghost var before := Sends(caps.Keys);
      hub.Unregister(client);
      assert Sends(caps.Keys) == before;
    }

    /** One event from the bus, from the schema check to the queues. */
    method Consume(ev: Event, builder: FrameBuilder, accepted: bool)
      requires Valid() && ev.routingKey == ""
      modifies this`built, hub`live, hub.shards, hub.quotas, hub.live, builder
      ensures Valid() && caps == old(caps)
      ensures ev.schema != "" && ev.schema != "realtime-event-v1" ==>
        hub.live == old(hub.live) && Queues(hub.live) == old(Queues(hub.live)) && builder.runs == old(builder.runs)
      ensures (ev.schema == "" || ev.schema == "realtime-event-v1") && ev.eventType == invalidationType ==>
        && builder.runs == old(builder.runs)
        && hub.live == old(hub.live) - (set c | c in old(hub.live) && c.profile.tenant == ev.tenantID && c.profile.user == ev.userID && c.profile.topics != [])
        && (forall c :: c in hub.live ==> c.View() == old(c.View()))
      ensures (ev.schema == "" || ev.schema == "realtime-event-v1") && ev.eventType != invalidationType ==>
        && hub.live == old(hub.live)
        && builder.runs == old(builder.runs) + (if accepted && Addressees(hub.live, caps, ev) != {} then 1 else 0)
        && Queues(hub.live) == (if accepted then Broadcasted(old(Queues(hub.live)), Addressees(hub.live, caps, ev), builder.outcome)
                                else old(Queues(hub.live)))
    {
      if !IsSchemaSupported(ev) {
        return;
      }
      if ev.eventType == invalidationType {
        var _ := Invalidate(ev.tenantID, ev.userID);
        return;
      }
      Route(ev, builder, accepted);
    }
  }
}
