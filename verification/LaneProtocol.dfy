/** The lane dispatcher under concurrency: any number of Dispatch and Close calls and one
    worker for each lane, interleaved at the granularity of lock operations, channel
    operations and atomic instructions.  A send on a closed channel and the closing of a
    closed channel set `panicked`, as they would panic. */
module LaneProtocol {
  import opened Options
  import opened Hashing

  type CallId = nat

  datatype Event = Event(routingKey: string, tenantID: string, appID: string, topicID: string, eventID: string)

  datatype Config = Config(lanes: nat, capacity: nat, hash: HashFunction)

  ghost predicate ValidConfig(cfg: Config) {
    0 < cfg.lanes < TWO_TO_THE_32 && 0 < cfg.capacity
  }

  datatype Lane = Lane(queue: seq<Event>, closed: bool)

  datatype Worker =
    | Receiving
    | Decrementing(ev: Event)
    | Handling(ev: Event)
    | Exited

  /** A call in progress: what it is about to do. */
  datatype Call =
    | DispatchLock(ev: Event)
    | DispatchCheck(ev: Event)
    | DispatchSend(ev: Event)
    | DispatchCount(ev: Event)
    | DispatchUnlock(ev: Event, ok: bool)
    | DispatchDone(ev: Event, ok: bool)
    | CloseSwap
    | CloseLock
    | CloseLane(i: nat)
    | CloseUnlock
    | CloseWait
    | CloseCancel(drained: bool)
    | CloseDone(drained: bool)
    | CloseLost

  /** The shared state, then history: the winner of the swap on `closed`, and for each lane
      the events accepted and the events whose handling has ended. */
  datatype State = State(
    lanes: seq<Lane>,
    workers: seq<Worker>,
    calls: map<CallId, Call>,
    closed: bool,
    writer: Option<CallId>,
    depth: int,
    cancelled: bool,
    panicked: bool,
    winner: Option<CallId>,
    accepted: seq<seq<Event>>,
    handled: seq<seq<Event>>)

  datatype Step =
    | StartDispatch(o: CallId, ev: Event)
    | StartClose(o: CallId)
    | Advance(o: CallId)
    | TimeOut(o: CallId)
    | Work(l: nat)

  function Init(cfg: Config): State {
    State(seq(cfg.lanes, i => Lane([], false)), seq(cfg.lanes, i => Receiving), map[], false, None, 0, false, false,
          None, seq(cfg.lanes, i => []), seq(cfg.lanes, i => []))
  }

  function LaneKey(ev: Event): string {
    if ev.routingKey == "" then ev.tenantID + ":" + ev.appID + ":" + ev.topicID else ev.routingKey
  }

  function LaneOf(cfg: Config, ev: Event): nat
    requires ValidConfig(cfg)
    ensures LaneOf(cfg, ev) < cfg.lanes
  {
    ShardIndex(cfg.hash, LaneKey(ev), cfg.lanes)
  }

  /** The call holds the read lock. */
  predicate Reader(call: Call) {
    call.DispatchCheck? || call.DispatchSend? || call.DispatchCount? || call.DispatchUnlock?
  }

  predicate Wf(cfg: Config, s: State) {
    |s.lanes| == |s.workers| == |s.accepted| == |s.handled| == cfg.lanes
  }

  function Goto(s: State, o: CallId, call: Call): State {
    s.(calls := s.calls[o := call])
  }

  function AdvanceDispatch(cfg: Config, s: State, o: CallId): (r: State)
    requires ValidConfig(cfg) && Wf(cfg, s) && o in s.calls
    ensures Wf(cfg, r) && r.calls.Keys == s.calls.Keys
  {
    match s.calls[o]
    case DispatchLock(ev) => if s.writer.Some? then s else Goto(s, o, DispatchCheck(ev))
    case DispatchCheck(ev) => if s.closed then Goto(s, o, DispatchUnlock(ev, false)) else Goto(s, o, DispatchSend(ev))
    case DispatchSend(ev) =>
      var l := LaneOf(cfg, ev);
      if s.lanes[l].closed then
        s.(panicked := true)
      else if |s.lanes[l].queue| < cfg.capacity then
        Goto(s, o, DispatchCount(ev)).(
          lanes := s.lanes[l := s.lanes[l].(queue := s.lanes[l].queue + [ev])],
          accepted := s.accepted[l := s.accepted[l] + [ev]])
      else
        Goto(s, o, DispatchUnlock(ev, false))
    case DispatchCount(ev) => Goto(s, o, DispatchUnlock(ev, true)).(depth := s.depth + 1)
    case DispatchUnlock(ev, ok) => Goto(s, o, DispatchDone(ev, ok))
    case _ => s
  }

  function AdvanceClose(s: State, o: CallId): (r: State)
    requires o in s.calls
    ensures |r.lanes| == |s.lanes| && r.calls.Keys == s.calls.Keys
    ensures r.workers == s.workers && r.accepted == s.accepted && r.handled == s.handled && r.depth == s.depth
  {
    match s.calls[o]
    case CloseSwap => if s.closed then Goto(s, o, CloseLost) else Goto(s, o, CloseLock).(closed := true, winner := Some(o))
    case CloseLock =>
      if s.writer.Some? || exists p :: p in s.calls && Reader(s.calls[p]) then s
      else Goto(s, o, CloseLane(0)).(writer := Some(o))
    case CloseLane(i) =>
      if i < |s.lanes| then
        if s.lanes[i].closed then s.(panicked := true)
        else Goto(s, o, CloseLane(i + 1)).(lanes := s.lanes[i := s.lanes[i].(closed := true)])
      else
        Goto(s, o, CloseUnlock)
    case CloseUnlock => Goto(s, o, CloseWait).(writer := None)
    case CloseWait => if forall w :: w in s.workers ==> w.Exited? then Goto(s, o, CloseCancel(true)) else s
    case CloseCancel(drained) => Goto(s, o, CloseDone(drained)).(cancelled := true)
    case _ => s
  }

  function WorkerStep(s: State, l: nat): (r: State)
    requires l < |s.lanes| == |s.workers| == |s.handled|
    ensures |r.lanes| == |s.lanes| && |r.workers| == |s.workers| && |r.handled| == |s.handled|
    ensures r == s.(lanes := r.lanes, workers := r.workers, handled := r.handled, depth := r.depth)
  {
    match s.workers[l]
    case Receiving =>
      if s.lanes[l].queue != [] then
        s.(lanes := s.lanes[l := s.lanes[l].(queue := s.lanes[l].queue[1..])],
           workers := s.workers[l := Decrementing(s.lanes[l].queue[0])])
      else if s.lanes[l].closed then
        s.(workers := s.workers[l := Exited])
      else
        s
    case Decrementing(ev) => s.(workers := s.workers[l := Handling(ev)], depth := s.depth - 1)
    case Handling(ev) => s.(workers := s.workers[l := Receiving], handled := s.handled[l := s.handled[l] + [ev]])
    case Exited => s
  }

  function Next(cfg: Config, s: State, step: Step): (r: State)
    requires ValidConfig(cfg) && Wf(cfg, s)
    ensures Wf(cfg, r)
  {
    match step
    case StartDispatch(o, ev) => if o in s.calls then s else Goto(s, o, DispatchLock(ev))
    case StartClose(o) => if o in s.calls then s else Goto(s, o, CloseSwap)
    case Advance(o) =>
      if o !in s.calls then s
      else if s.calls[o].DispatchLock? || Reader(s.calls[o]) then AdvanceDispatch(cfg, s, o)
      else AdvanceClose(s, o)
    case TimeOut(o) => if o in s.calls && s.calls[o].CloseWait? then Goto(s, o, CloseCancel(false)) else s
    case Work(l) => if l < cfg.lanes then WorkerStep(s, l) else s
  }

  /** The state after a run. */
  function Run(cfg: Config, steps: seq<Step>): (r: State)
    requires ValidConfig(cfg)
    ensures Wf(cfg, r)
  {
    if steps == [] then Init(cfg)
    else Next(cfg, Run(cfg, steps[..|steps| - 1]), steps[|steps| - 1])
  }
}
