/** What delivery achieves: an undisturbed enqueue is the atomic offer, and nothing in the way of
    an event keeps it from its clients. */
module DeliveryComplete {
  import Q = ClientQueue
  import opened Delivery

  // ---- An undisturbed enqueue is an offer ----

  /** How many channel operations an enqueue can still need. */
  function Rank(stage: Stage): nat {
    match stage
    case CheckClosed => 4
    case TrySend => 3
    case DropOldest => 2
    case Resend => 1
    case CloseSlow => 1
  }

  /** All remaining channel operations on the first recipient's box, with nothing in between. */
  function Settle(cfg: Config, p: Producer, box: Box): (Producer, Box)
    requires p.Fanout? && p.todo != []
    decreases Rank(p.stage)
  {
    var (p', box') := Enqueue(cfg, p, box);
    if p' == p.(stage := p'.stage) && Rank(p'.stage) < Rank(p.stage) then Settle(cfg, p', box') else (p', box')
  }

  /** The frames of some items, whatever frames the items have. */
  function Frames(items: seq<Item>, frame: Item -> Q.Frame): seq<Q.Frame> {
    seq(|items|, i requires 0 <= i < |items| => frame(items[i]))
  }

  function QueueOf(box: Box, frame: Item -> Q.Frame): Q.Queue {
    Q.Queue(Frames(box.send, frame), box.closed)
  }

  /** An enqueue that nobody disturbs does to the box what the atomic offer does to the queue, and
      goes on to the next recipient. */
  lemma UndisturbedEnqueueIsOffer(cfg: Config, p: Producer, box: Box, frame: Item -> Q.Frame)
    requires p.Fanout? && p.todo != [] && p.stage == CheckClosed
    ensures var (p', box') := Settle(cfg, p, box);
      && p' == NextClient(p)
      && QueueOf(box', frame) == Q.Offer(QueueOf(box, frame), cfg.capacity, cfg.policy(p.todo[0]), frame(p.item)).0
  {
    FramesMore(box.send, p.item, frame);
    if !box.closed && |box.send| >= cfg.capacity {
      var sending := p.(stage := TrySend);
      assert Settle(cfg, p, box) == Settle(cfg, sending, box);
      if cfg.policy(p.todo[0]) == Q.DROP_OLDEST {
        var rest := if box.send != [] then box.(send := box.send[1..]) else box;
        assert Frames(rest.send, frame) == if box.send != [] then Frames(box.send, frame)[1..] else Frames(box.send, frame);
        FramesMore(rest.send, p.item, frame);
        assert Settle(cfg, sending, box) == Settle(cfg, p.(stage := DropOldest), box);
        assert Settle(cfg, p.(stage := DropOldest), box) == Settle(cfg, p.(stage := Resend), rest);
      } else if cfg.policy(p.todo[0]) != Q.DROP_NEWEST {
        assert Settle(cfg, sending, box) == Settle(cfg, p.(stage := CloseSlow), box);
      }
    }
  }

  lemma FramesMore(items: seq<Item>, item: Item, frame: Item -> Q.Frame)
    ensures Frames(items + [item], frame) == Frames(items, frame) + [frame(item)]
  {
  }

  // ---- Every event can arrive ----

  ghost predicate Roomy(cfg: Config) {
    ValidConfig(cfg) && cfg.laneCapacity > 0 && cfg.capacity > 0
  }

  /** Nothing is on its way, the box of client `c` is open and empty, and its writer has taken the
      first `n` events. */
  ghost predicate Ready(cfg: Config, s: State, c: nat, n: nat)
    requires ValidConfig(cfg) && c < cfg.clients
  {
    && Wf(cfg, s) && s.next == n
    && (forall l :: 0 <= l < cfg.lanes ==> s.lanes[l] == [] && s.workers[l].Idle?)
    && s.boxes[c] == Box([], false)
    && s.taken[c] == FirstEvents(n)
  }

  /** The frames of the first `n` events. */
  function FirstEvents(n: nat): seq<Item> {
    seq(n, i requires 0 <= i < n => Data(i))
  }

  /** One more step of a run. */
  lemma Then(cfg: Config, steps: seq<Step>, step: Step) returns (more: seq<Step>)
    requires ValidConfig(cfg)
    ensures Run(cfg, more) == Next(cfg, Run(cfg, steps), step)
  {
    more := steps + [step];
    assert more[..|more| - 1] == steps;
  }

  /** The event enters its lane and its worker takes it. */
  lemma Departs(cfg: Config, s: State, c: nat, n: nat)
    requires Roomy(cfg) && c < cfg.clients && n < |cfg.bus| && Ready(cfg, s, c, n)
    ensures var l := LaneOf(cfg, n);
      var r := Next(cfg, Next(cfg, s, Consume(true)), Receive(l));
      && r.next == n + 1 && r.boxes == s.boxes && r.taken == s.taken && r.beats == s.beats
      && r.workers == s.workers[l := Received(n)] && (forall m :: 0 <= m < cfg.lanes ==> r.lanes[m] == [])
  {
    var l := LaneOf(cfg, n);
    var s1 := Next(cfg, s, Consume(true));
    assert s1.lanes[l] == [n];
  }

  /** The fan-out to client `c` alone puts the frame into its box. */
  lemma Lands(cfg: Config, s: State, l: nat, c: nat, n: nat)
    requires Roomy(cfg) && Wf(cfg, s) && c < cfg.clients && l < cfg.lanes
    requires s.workers[l] == Received(n) && s.boxes[c] == Box([], false)
    ensures var s3 := Next(cfg, s, Broadcast(l, [c]));
      var r := Next(cfg, Next(cfg, Next(cfg, s3, WorkerEnqueue(l)), WorkerEnqueue(l)), WorkerEnqueue(l));
      && r == s.(workers := s.workers[l := Idle], boxes := s.boxes[c := Box([Data(n)], false)])
  {
    var s3 := Next(cfg, s, Broadcast(l, [c]));
    assert s3 == s.(workers := s.workers[l := Fanout(Data(n), [c], CheckClosed)]);
    var s4 := Next(cfg, s3, WorkerEnqueue(l));
    assert s4 == s.(workers := s.workers[l := Fanout(Data(n), [c], TrySend)], boxes := s.boxes[c := s.boxes[c]]);
    var s5 := Next(cfg, s4, WorkerEnqueue(l));
    assert [c][1..] == [] && [] + [Data(n)] == [Data(n)];
    assert s5 == s.(workers := s.workers[l := Fanout(Data(n), [], CheckClosed)], boxes := s.boxes[c := Box([Data(n)], false)]);
  }

  lemma Arrives(cfg: Config, s: State, s2: State, c: nat, n: nat)
    requires Roomy(cfg) && c < cfg.clients && n < |cfg.bus| && Ready(cfg, s, c, n) && Wf(cfg, s2)
    requires var l := LaneOf(cfg, n);
      && s2.next == n + 1 && s2.taken == s.taken && (forall m :: 0 <= m < cfg.lanes ==> s2.lanes[m] == [])
      && s2.workers == s.workers[l := Idle] && s2.boxes == s.boxes[c := Box([Data(n)], false)]
    ensures Ready(cfg, Next(cfg, s2, Take(c)), c, n + 1)
  {
    assert [Data(n)][1..] == [];
    assert FirstEvents(n + 1) == FirstEvents(n) + [Data(n)];
  }

  /** For every configuration with room and every client there is a run in which the client's
      writer takes the frames of all events of the bus, in order: no step drops an event by
      itself. */
  lemma {:induction false} EverythingCanArrive(cfg: Config, c: nat, n: nat) returns (steps: seq<Step>)
    requires Roomy(cfg) && c < cfg.clients && n <= |cfg.bus|
    ensures Ready(cfg, Run(cfg, steps), c, n)
  {
    if n == 0 {
      steps := [];
    } else {
      steps := EverythingCanArrive(cfg, c, n - 1);
      steps := OneMoreArrives(cfg, steps, c, n - 1);
    }
  }

  lemma OneMoreArrives(cfg: Config, steps: seq<Step>, c: nat, n: nat) returns (more: seq<Step>)
    requires Roomy(cfg) && c < cfg.clients && n < |cfg.bus| && Ready(cfg, Run(cfg, steps), c, n)
    ensures Ready(cfg, Run(cfg, more), c, n + 1)
  {
    var s, l := Run(cfg, steps), LaneOf(cfg, n);
    more := Then(cfg, steps, Consume(true));
    more := Then(cfg, more, Receive(l));
    Departs(cfg, s, c, n);
    var s1 := Run(cfg, more);
    more := Then(cfg, more, Broadcast(l, [c]));
    more := Then(cfg, more, WorkerEnqueue(l));
    more := Then(cfg, more, WorkerEnqueue(l));
    more := Then(cfg, more, WorkerEnqueue(l));
    Lands(cfg, s1, l, c, n);
    Arrives(cfg, s, Run(cfg, more), c, n);
    more := Then(cfg, more, Take(c));
  }
}
