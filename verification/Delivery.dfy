/** The path of an event from the bus to a client's writer: one consumer, the lanes and their
    workers, the fan-out over a snapshot of recipients, the clients' send queues under any
    policy, and heartbeats as further producers.  Enqueueing is interleaved at the granularity
    of single channel operations, so producers can meet in the middle of a drop. */
module Delivery {
  import opened Sequences
  import opened Hashing
  import opened ClientQueue

  /** The events in bus order, each with the routing key that the consumer computes for it. */
  datatype Event = Event(key: string, id: string)

  datatype Config = Config(
    bus: seq<Event>, lanes: nat, laneCapacity: nat, hash: HashFunction,
    clients: nat, capacity: nat, policy: nat -> string)

  ghost predicate ValidConfig(cfg: Config) {
    0 < cfg.lanes < TWO_TO_THE_32
  }

  /** A frame is built from an event of the bus, or is a heartbeat. */
  datatype Item = Data(i: nat) | Beat

  datatype Box = Box(send: seq<Item>, closed: bool)

  /** Where an EnqueueFrame stands. */
  datatype Stage = CheckClosed | TrySend | DropOldest | Resend | CloseSlow

  datatype Producer =
    | Idle
    | Received(i: nat)
    | Fanout(item: Item, todo: seq<nat>, stage: Stage)

  /** `taken` is history: what each client's writer has taken. */
  datatype State = State(
    next: nat,
    lanes: seq<seq<nat>>,
    workers: seq<Producer>,
    beats: map<nat, Producer>,
    boxes: seq<Box>,
    taken: seq<seq<Item>>)

  datatype Step =
    | Consume(dispatch: bool)                      // the consumer dispatches or drops the next event
    | Receive(l: nat)                              // the worker of a lane takes an event
    | Broadcast(l: nat, recipients: seq<nat>)      // it has its recipients and its frame
    | StartBeat(h: nat, recipients: seq<nat>)      // a heartbeat starts
    | WorkerEnqueue(l: nat)                        // one channel operation of a fan-out
    | BeatEnqueue(h: nat)
    | Take(c: nat)                                 // the writer of a client takes a frame
    | Close(c: nat)

  function Init(cfg: Config): State {
    State(0, seq(cfg.lanes, l => []), seq(cfg.lanes, l => Idle), map[],
          seq(cfg.clients, c => Box([], false)), seq(cfg.clients, c => []))
  }

  function LaneOf(cfg: Config, i: nat): nat
    requires ValidConfig(cfg) && i < |cfg.bus|
    ensures LaneOf(cfg, i) < cfg.lanes
  {
    ShardIndex(cfg.hash, cfg.bus[i].key, cfg.lanes)
  }

  predicate Wf(cfg: Config, s: State) {
    && |s.lanes| == |s.workers| == cfg.lanes
    && |s.boxes| == |s.taken| == cfg.clients
    && s.next <= |cfg.bus|
  }

  /** The fan-out goes on to its next recipient. */
  function NextClient(p: Producer): Producer
    requires p.Fanout? && p.todo != []
  {
    Fanout(p.item, p.todo[1..], CheckClosed)
  }

  /** One channel operation on the first recipient's box. */
  function Enqueue(cfg: Config, p: Producer, box: Box): (Producer, Box)
    requires p.Fanout? && p.todo != []
  {
    match p.stage
    case CheckClosed => if box.closed then (NextClient(p), box) else (p.(stage := TrySend), box)
    case TrySend =>
      if |box.send| < cfg.capacity then (NextClient(p), box.(send := box.send + [p.item]))
      else if cfg.policy(p.todo[0]) == DROP_OLDEST then (p.(stage := DropOldest), box)
      else if cfg.policy(p.todo[0]) == DROP_NEWEST then (NextClient(p), box)
      else (p.(stage := CloseSlow), box)
    case DropOldest => (p.(stage := Resend), if box.send != [] then box.(send := box.send[1..]) else box)
    case Resend =>
      (NextClient(p), if |box.send| < cfg.capacity then box.(send := box.send + [p.item]) else box)
    case CloseSlow => (NextClient(p), box.(closed := true))
  }

  /** A producer moves: to idle when no recipient is left, otherwise by one operation. */
  function Produce(cfg: Config, p: Producer, boxes: seq<Box>): (r: (Producer, seq<Box>))
    requires p.Fanout? && (forall c :: c in p.todo ==> c < |boxes|)
    ensures |r.1| == |boxes|
  {
    if p.todo == [] then (Idle, boxes)
    else
      var c := p.todo[0];
      assert c in p.todo;
      var (p', box) := Enqueue(cfg, p, boxes[c]);
      (p', boxes[c := box])
  }

  predicate Sending(p: Producer, clients: nat) {
    p.Fanout? && forall c :: c in p.todo ==> c < clients
  }

  function Next(cfg: Config, s: State, step: Step): (r: State)
    requires ValidConfig(cfg) && Wf(cfg, s)
    ensures Wf(cfg, r)
  {
    match step
    case Consume(dispatch) =>
      if s.next == |cfg.bus| then s
      else
        var l := LaneOf(cfg, s.next);
        if dispatch && |s.lanes[l]| < cfg.laneCapacity
        then s.(next := s.next + 1, lanes := s.lanes[l := s.lanes[l] + [s.next]])
        else s.(next := s.next + 1)
    case Receive(l) =>
      if l < cfg.lanes && s.workers[l].Idle? && s.lanes[l] != []
      then s.(workers := s.workers[l := Received(s.lanes[l][0])], lanes := s.lanes[l := s.lanes[l][1..]])
      else s
    case Broadcast(l, recipients) =>
      if l < cfg.lanes && s.workers[l].Received? && Distinct(recipients) && (forall c :: c in recipients ==> c < cfg.clients)
      then s.(workers := s.workers[l := Fanout(Data(s.workers[l].i), recipients, CheckClosed)])
      else s
    case StartBeat(h, recipients) =>
      if (h in s.beats ==> s.beats[h].Idle?) && (forall c :: c in recipients ==> c < cfg.clients)
      then s.(beats := s.beats[h := Fanout(Beat, recipients, CheckClosed)])
      else s
    case WorkerEnqueue(l) =>
      if l < cfg.lanes && Sending(s.workers[l], cfg.clients)
      then var (p, boxes) := Produce(cfg, s.workers[l], s.boxes); s.(workers := s.workers[l := p], boxes := boxes)
      else s
    case BeatEnqueue(h) =>
      if h in s.beats && Sending(s.beats[h], cfg.clients)
      then var (p, boxes) := Produce(cfg, s.beats[h], s.boxes); s.(beats := s.beats[h := p], boxes := boxes)
      else s
    case Take(c) =>
      if c < cfg.clients && s.boxes[c].send != []
      then s.(boxes := s.boxes[c := s.boxes[c].(send := s.boxes[c].send[1..])],
              taken := s.taken[c := s.taken[c] + [s.boxes[c].send[0]]])
      else s
    case Close(c) => if c < cfg.clients then s.(boxes := s.boxes[c := s.boxes[c].(closed := true)]) else s
  }

  /** The state after a run. */
  function Run(cfg: Config, steps: seq<Step>): (r: State)
    requires ValidConfig(cfg)
    ensures Wf(cfg, r)
  {
    if steps == [] then Init(cfg)
    else Next(cfg, Run(cfg, steps[..|steps| - 1]), steps[|steps| - 1])
  }
}
