/** Safety of the lane dispatcher over whole runs. */
module LaneSafety {
  import opened Options
  import opened LaneProtocol

  // ---- The parts of the depth counter ----

  ghost function Queued(lanes: seq<Lane>): nat {
    if lanes == [] then 0 else |lanes[0].queue| + Queued(lanes[1..])
  }

  ghost function InHand(workers: seq<Worker>): nat {
    if workers == [] then 0 else (if workers[0].Decrementing? then 1 else 0) + InHand(workers[1..])
  }

  /** The dispatches that have sent their event and not yet counted it. */
  ghost function Uncounted(calls: map<CallId, Call>): set<CallId> {
    set o | o in calls && calls[o].DispatchCount?
  }

  lemma {:induction false} QueuedUpdate(lanes: seq<Lane>, l: nat, lane: Lane)
    requires l < |lanes|
    ensures Queued(lanes[l := lane]) == Queued(lanes) - |lanes[l].queue| + |lane.queue|
  {
    if l == 0 {
      assert lanes[0 := lane][1..] == lanes[1..];
    } else {
      QueuedUpdate(lanes[1..], l - 1, lane);
      assert lanes[l := lane][1..] == lanes[1..][l - 1 := lane];
    }
  }

  lemma {:induction false} InHandUpdate(workers: seq<Worker>, l: nat, w: Worker)
    requires l < |workers|
    ensures InHand(workers[l := w]) ==
            InHand(workers) - (if workers[l].Decrementing? then 1 else 0) + (if w.Decrementing? then 1 else 0)
  {
    if l == 0 {
      assert workers[0 := w][1..] == workers[1..];
    } else {
      InHandUpdate(workers[1..], l - 1, w);
      assert workers[l := w][1..] == workers[1..][l - 1 := w];
    }
  }

  lemma {:induction false} NothingQueued(lanes: seq<Lane>, workers: seq<Worker>)
    requires (forall l :: 0 <= l < |lanes| ==> lanes[l].queue == [])
    requires (forall l :: 0 <= l < |workers| ==> !workers[l].Decrementing?)
    ensures Queued(lanes) == 0 && InHand(workers) == 0
  {
    if lanes == [] {
    } else {
      NothingQueued(lanes[1..], []);
    }
    if workers != [] {
      NothingQueued([], workers[1..]);
    }
  }

  lemma SizeWithout(s: set<CallId>, o: CallId)
    ensures |s - {o}| == |s| - if o in s then 1 else 0
  {
  }

  lemma UncountedUpdate(calls: map<CallId, Call>, o: CallId, call: Call)
    ensures |Uncounted(calls[o := call])| ==
            |Uncounted(calls)| - (if o in Uncounted(calls) then 1 else 0) + (if call.DispatchCount? then 1 else 0)
  {
    var before, after := Uncounted(calls), Uncounted(calls[o := call]);
    assert after - {o} == before - {o};
    SizeWithout(before, o);
    SizeWithout(after, o);
  }

  ghost predicate DepthExact(s: State) {
    s.depth == Queued(s.lanes) + InHand(s.workers) - |Uncounted(s.calls)|
  }

  // ---- Locks and closing ----

  /** The call has won the swap on `closed`. */
  ghost predicate Winning(call: Call) {
    call.CloseLock? || Sealing(call)
  }

  /** It has also taken the write lock. */
  ghost predicate Sealing(call: Call) {
    call.CloseLane? || call.CloseUnlock? || call.CloseWait? || call.CloseCancel? || call.CloseDone?
  }

  ghost predicate Sealed(s: State) {
    s.winner.Some? && s.winner.value in s.calls && Sealing(s.calls[s.winner.value])
  }

  ghost predicate CallOk(s: State, o: CallId, call: Call) {
    && (s.writer == Some(o) <==> call.CloseLane? || call.CloseUnlock?)
    && (Reader(call) ==> s.writer.None?)
    && (Winning(call) ==> s.winner == Some(o))
    && (call.DispatchSend? || call.DispatchCount? ==> !Sealed(s))
  }

  ghost predicate LaneOpen(s: State, l: nat) {
    s.winner.None? || s.winner.value !in s.calls ||
    var call := s.calls[s.winner.value]; call.CloseLock? || (call.CloseLane? && call.i <= l)
  }

  ghost predicate Locks(s: State) {
    && (forall o :: o in s.calls ==> CallOk(s, o, s.calls[o]))
    && (s.writer.Some? ==> s.writer.value in s.calls)
    && (s.winner.Some? ==> s.winner.value in s.calls && Winning(s.calls[s.winner.value]))
    && (s.closed <==> s.winner.Some?)
    && (s.cancelled ==> s.winner.Some? && s.calls[s.winner.value].CloseDone?)
    && !s.panicked
  }

  // ---- One lane ----

  ghost function InFlight(w: Worker): seq<Event> {
    if w.Decrementing? || w.Handling? then [w.ev] else []
  }

  ghost predicate LaneOk(cfg: Config, s: State, l: nat)
    requires ValidConfig(cfg) && Wf(cfg, s) && l < cfg.lanes
  {
    && (s.lanes[l].closed <==> !LaneOpen(s, l))
    && |s.lanes[l].queue| <= cfg.capacity
    && s.accepted[l] == s.handled[l] + InFlight(s.workers[l]) + s.lanes[l].queue
    && (s.workers[l].Exited? ==> s.lanes[l].closed && s.lanes[l].queue == [])
    && (forall ev :: ev in s.accepted[l] ==> LaneOf(cfg, ev) == l)
  }

  ghost predicate Drained(s: State) {
    s.winner.Some? && s.winner.value in s.calls && var call := s.calls[s.winner.value];
      (call.CloseCancel? || call.CloseDone?) && call.drained
  }

  ghost predicate Inv(cfg: Config, s: State)
    requires ValidConfig(cfg)
  {
    && Wf(cfg, s)
    && Locks(s)
    && (forall l :: 0 <= l < cfg.lanes ==> LaneOk(cfg, s, l))
    && (Drained(s) ==> forall l :: 0 <= l < cfg.lanes ==> s.workers[l].Exited?)
    && DepthExact(s)
  }

  // ---- Every step keeps it ----

  /** A Dispatch that sends, to an open lane with room or to none. */
  lemma SendStep(cfg: Config, s: State, o: CallId)
    requires ValidConfig(cfg) && Inv(cfg, s) && o in s.calls && s.calls[o].DispatchSend?
    ensures var r, ev := AdvanceDispatch(cfg, s, o), s.calls[o].ev;
      || r == Goto(s, o, DispatchUnlock(ev, false))
      || var l := LaneOf(cfg, ev);
         && |s.lanes[l].queue| < cfg.capacity
         && r == Goto(s, o, DispatchCount(ev)).(
                   lanes := s.lanes[l := s.lanes[l].(queue := s.lanes[l].queue + [ev])],
                   accepted := s.accepted[l := s.accepted[l] + [ev]])
  {
    assert CallOk(s, o, s.calls[o]) && LaneOk(cfg, s, LaneOf(cfg, s.calls[o].ev));
  }

  /** The locks do not depend on the queues. */
  lemma GotoLocks(s: State, r: State, o: CallId, call: Call)
    requires Locks(s) && o in s.calls && (s.calls[o].DispatchLock? || Reader(s.calls[o]))
    requires call.DispatchCheck? || call.DispatchSend? || call.DispatchCount? || call.DispatchUnlock? || call.DispatchDone?
    requires (Reader(call) ==> s.writer.None?) && (call.DispatchSend? ==> !s.closed)
    requires call.DispatchCount? ==> s.calls[o].DispatchSend?
    requires r == Goto(s, o, call).(lanes := r.lanes, accepted := r.accepted, depth := r.depth)
    ensures Locks(r)
  {
    assert CallOk(s, o, s.calls[o]);
  }

  lemma DispatchLocks(cfg: Config, s: State, o: CallId)
    requires ValidConfig(cfg) && Inv(cfg, s) && o in s.calls && (s.calls[o].DispatchLock? || Reader(s.calls[o]))
    ensures Locks(AdvanceDispatch(cfg, s, o))
  {
    var r := AdvanceDispatch(cfg, s, o);
    assert CallOk(s, o, s.calls[o]);
    if s.calls[o].DispatchSend? {
      SendStep(cfg, s, o);
    }
    if r != s {
      GotoLocks(s, r, o, r.calls[o]);
    }
  }

  /** A lane whose queue, worker and history a step leaves alone. */
  lemma SameLane(cfg: Config, s: State, r: State, o: CallId, l: nat)
    requires ValidConfig(cfg) && Wf(cfg, s) && Wf(cfg, r) && l < cfg.lanes && LaneOk(cfg, s, l)
    requires r.winner == s.winner && r.calls.Keys == s.calls.Keys && (s.winner == Some(o) ==> r.calls == s.calls)
    requires forall p :: p in s.calls && p != o ==> r.calls[p] == s.calls[p]
    requires r.lanes[l] == s.lanes[l] && r.workers[l] == s.workers[l]
    requires r.accepted[l] == s.accepted[l] && r.handled[l] == s.handled[l]
    ensures LaneOk(cfg, r, l)
  {
    assert LaneOpen(r, l) <==> LaneOpen(s, l);
  }

  lemma SendLane(cfg: Config, s: State, o: CallId)
    requires ValidConfig(cfg) && Inv(cfg, s) && o in s.calls && s.calls[o].DispatchSend?
    ensures LaneOk(cfg, AdvanceDispatch(cfg, s, o), LaneOf(cfg, s.calls[o].ev))
  {
    var l, r := LaneOf(cfg, s.calls[o].ev), AdvanceDispatch(cfg, s, o);
    SendStep(cfg, s, o);
    assert CallOk(s, o, s.calls[o]) && LaneOk(cfg, s, l);
    assert s.winner != Some(o);
    assert LaneOpen(r, l) <==> LaneOpen(s, l);
  }

  lemma DispatchLane(cfg: Config, s: State, o: CallId, l: nat)
    requires ValidConfig(cfg) && Inv(cfg, s) && o in s.calls && (s.calls[o].DispatchLock? || Reader(s.calls[o]))
    requires l < cfg.lanes
    ensures LaneOk(cfg, AdvanceDispatch(cfg, s, o), l)
  {
    assert LaneOk(cfg, s, l) && s.winner != Some(o);
    if s.calls[o].DispatchSend? && l == LaneOf(cfg, s.calls[o].ev) {
      SendLane(cfg, s, o);
    } else {
      SameLane(cfg, s, AdvanceDispatch(cfg, s, o), o, l);
    }
  }

  /** The depth moves with the queues and with what is still to be counted. */
  lemma DepthMoves(s: State, r: State, o: CallId, call: Call)
    requires DepthExact(s) && o in s.calls && r.calls == s.calls[o := call] && r.workers == s.workers
    requires r.depth - s.depth == Queued(r.lanes) - Queued(s.lanes)
      + (if s.calls[o].DispatchCount? then 1 else 0) - (if call.DispatchCount? then 1 else 0)
    ensures DepthExact(r)
  {
    UncountedUpdate(s.calls, o, call);
  }

  lemma DispatchDepth(cfg: Config, s: State, o: CallId)
    requires ValidConfig(cfg) && Inv(cfg, s) && o in s.calls && (s.calls[o].DispatchLock? || Reader(s.calls[o]))
    ensures DepthExact(AdvanceDispatch(cfg, s, o))
  {
    var r := AdvanceDispatch(cfg, s, o);
    if s.calls[o].DispatchSend? {
      var l := LaneOf(cfg, s.calls[o].ev);
      SendStep(cfg, s, o);
      QueuedUpdate(s.lanes, l, r.lanes[l]);
    }
    if r != s {
      DepthMoves(s, r, o, r.calls[o]);
    }
  }

  lemma CloseLocks(cfg: Config, s: State, o: CallId)
    requires ValidConfig(cfg) && Inv(cfg, s) && o in s.calls && !s.calls[o].DispatchLock? && !Reader(s.calls[o])
    ensures Locks(AdvanceClose(s, o))
  {
    assert CallOk(s, o, s.calls[o]);
    if s.calls[o].CloseLane? && s.calls[o].i < |s.lanes| {
      assert LaneOk(cfg, s, s.calls[o].i);
    }
  }

  lemma CloseLanes(cfg: Config, s: State, o: CallId, l: nat)
    requires ValidConfig(cfg) && Inv(cfg, s) && o in s.calls && !s.calls[o].DispatchLock? && !Reader(s.calls[o])
    requires l < cfg.lanes
    ensures LaneOk(cfg, AdvanceClose(s, o), l)
  {
    assert CallOk(s, o, s.calls[o]) && LaneOk(cfg, s, l);
  }

  lemma CloseLaneDepth(s: State, o: CallId)
    requires DepthExact(s) && o in s.calls && s.calls[o].CloseLane? && s.calls[o].i < |s.lanes|
    ensures DepthExact(AdvanceClose(s, o))
  {
    var i := s.calls[o].i;
    if !s.lanes[i].closed {
      QueuedUpdate(s.lanes, i, s.lanes[i].(closed := true));
      DepthMoves(s, AdvanceClose(s, o), o, CloseLane(i + 1));
    }
  }

  /** A section of a Close that closes no lane changes at most its own call and the flags. */
  lemma CloseStep(s: State, o: CallId)
    requires o in s.calls && !s.calls[o].DispatchLock? && !Reader(s.calls[o])
    requires !(s.calls[o].CloseLane? && s.calls[o].i < |s.lanes|)
    ensures var r := AdvanceClose(s, o);
      && r.lanes == s.lanes && r.calls == s.calls[o := r.calls[o]] && !r.calls[o].DispatchCount?
  {
    assert s.calls[o := s.calls[o]] == s.calls;
  }

  lemma CloseDepth(s: State, o: CallId)
    requires DepthExact(s) && o in s.calls && !s.calls[o].DispatchLock? && !Reader(s.calls[o])
    ensures DepthExact(AdvanceClose(s, o))
  {
    if s.calls[o].CloseLane? && s.calls[o].i < |s.lanes| {
      CloseLaneDepth(s, o);
    } else {
      CloseStep(s, o);
      DepthMoves(s, AdvanceClose(s, o), o, AdvanceClose(s, o).calls[o]);
    }
  }

  lemma WorkLane(cfg: Config, s: State, l: nat, m: nat)
    requires ValidConfig(cfg) && Inv(cfg, s) && l < cfg.lanes && m < cfg.lanes
    ensures LaneOk(cfg, WorkerStep(s, l), m)
  {
    assert LaneOk(cfg, s, m);
  }

  lemma WorkDepth(cfg: Config, s: State, l: nat)
    requires Wf(cfg, s) && DepthExact(s) && l < cfg.lanes
    ensures DepthExact(WorkerStep(s, l))
  {
    var r := WorkerStep(s, l);
    QueuedUpdate(s.lanes, l, r.lanes[l]);
    InHandUpdate(s.workers, l, r.workers[l]);
  }

  lemma DispatchKeeps(cfg: Config, s: State, o: CallId)
    requires ValidConfig(cfg) && Inv(cfg, s) && o in s.calls && (s.calls[o].DispatchLock? || Reader(s.calls[o]))
    ensures Inv(cfg, AdvanceDispatch(cfg, s, o))
  {
    var r := AdvanceDispatch(cfg, s, o);
    DispatchLocks(cfg, s, o);
    DispatchDepth(cfg, s, o);
    forall l | 0 <= l < cfg.lanes ensures LaneOk(cfg, r, l) { DispatchLane(cfg, s, o, l); }
    assert CallOk(s, o, s.calls[o]) && s.winner != Some(o);
    assert Drained(r) <==> Drained(s);
  }

  lemma CloseKeeps(cfg: Config, s: State, o: CallId)
    requires ValidConfig(cfg) && Inv(cfg, s) && o in s.calls && !s.calls[o].DispatchLock? && !Reader(s.calls[o])
    ensures Inv(cfg, AdvanceClose(s, o))
  {
    var r := AdvanceClose(s, o);
    CloseLocks(cfg, s, o);
    CloseDepth(s, o);
    forall l | 0 <= l < cfg.lanes ensures LaneOk(cfg, r, l) { CloseLanes(cfg, s, o, l); }
    assert CallOk(s, o, s.calls[o]);
  }

  lemma AdvanceKeeps(cfg: Config, s: State, o: CallId)
    requires ValidConfig(cfg) && Inv(cfg, s) && o in s.calls
    ensures Inv(cfg, Next(cfg, s, Advance(o)))
  {
    if s.calls[o].DispatchLock? || Reader(s.calls[o]) {
      DispatchKeeps(cfg, s, o);
    } else {
      CloseKeeps(cfg, s, o);
    }
  }

  lemma GotoKeeps(cfg: Config, s: State, o: CallId, call: Call)
    requires ValidConfig(cfg) && Inv(cfg, s)
    requires if call.DispatchLock? || call.CloseSwap? then o !in s.calls
             else call == CloseCancel(false) && o in s.calls && s.calls[o].CloseWait?
    ensures Inv(cfg, Goto(s, o, call))
  {
    var r := Goto(s, o, call);
    UncountedUpdate(s.calls, o, call);
    forall l | 0 <= l < cfg.lanes ensures LaneOk(cfg, r, l) { assert LaneOk(cfg, s, l); }
  }

  lemma WorkKeeps(cfg: Config, s: State, l: nat)
    requires ValidConfig(cfg) && Inv(cfg, s) && l < cfg.lanes
    ensures Inv(cfg, WorkerStep(s, l))
  {
    var r := WorkerStep(s, l);
    WorkDepth(cfg, s, l);
    forall m | 0 <= m < cfg.lanes ensures LaneOk(cfg, r, m) { WorkLane(cfg, s, l, m); }
    assert forall o :: o in s.calls ==> CallOk(r, o, s.calls[o]) == CallOk(s, o, s.calls[o]);
  }

  lemma NextKeeps(cfg: Config, s: State, step: Step)
    requires ValidConfig(cfg) && Inv(cfg, s)
    ensures Inv(cfg, Next(cfg, s, step))
  {
    match step {
      case StartDispatch(o, ev) => if o !in s.calls { GotoKeeps(cfg, s, o, DispatchLock(ev)); }
      case StartClose(o) => if o !in s.calls { GotoKeeps(cfg, s, o, CloseSwap); }
      case Advance(o) => if o in s.calls { AdvanceKeeps(cfg, s, o); }
      case TimeOut(o) => if o in s.calls && s.calls[o].CloseWait? { GotoKeeps(cfg, s, o, CloseCancel(false)); }
      case Work(l) => if l < cfg.lanes { WorkKeeps(cfg, s, l); }
    }
  }

  lemma {:induction false} RunInv(cfg: Config, steps: seq<Step>)
    requires ValidConfig(cfg)
    ensures Inv(cfg, Run(cfg, steps))
  {
    if steps == [] {
      NothingQueued(Init(cfg).lanes, Init(cfg).workers);
      assert Uncounted(map[]) == {};
    } else {
      RunInv(cfg, steps[..|steps| - 1]);
      NextKeeps(cfg, Run(cfg, steps[..|steps| - 1]), steps[|steps| - 1]);
    }
  }

  // ---- The main results ----

  /** In no run does a send meet a closed lane or a lane get closed twice.  The reason: a
      Dispatch past its closed check holds the read lock, so no Close holds the write lock,
      and it stays so until the Dispatch is done. */
  lemma NoPanic(cfg: Config, steps: seq<Step>)
    requires ValidConfig(cfg)
    ensures var s := Run(cfg, steps);
      && !s.panicked
      && (forall o :: o in s.calls && Reader(s.calls[o]) ==> s.writer.None?)
      && (forall o, l :: o in s.calls && s.calls[o].DispatchSend? && 0 <= l < cfg.lanes ==> !s.lanes[l].closed)
      && (forall o :: o in s.calls && s.calls[o].CloseLane? && s.calls[o].i < cfg.lanes ==> !s.lanes[s.calls[o].i].closed)
  {
    RunInv(cfg, steps);
    var s := Run(cfg, steps);
    forall o, l | o in s.calls && s.calls[o].DispatchSend? && 0 <= l < cfg.lanes ensures !s.lanes[l].closed {
      assert LaneOk(cfg, s, l) && CallOk(s, o, s.calls[o]);
    }
    forall o | o in s.calls && s.calls[o].CloseLane? && s.calls[o].i < cfg.lanes ensures !s.lanes[s.calls[o].i].closed {
      assert LaneOk(cfg, s, s.calls[o].i) && CallOk(s, o, s.calls[o]);
    }
  }

  /** The depth counter is the number of queued events, plus those received and not yet
      subtracted, minus those sent and not yet added. */
  lemma DepthMeaning(cfg: Config, steps: seq<Step>)
    requires ValidConfig(cfg)
    ensures var s := Run(cfg, steps);
      s.depth == Queued(s.lanes) + InHand(s.workers) - |Uncounted(s.calls)|
  {
    RunInv(cfg, steps);
  }

  /** Every lane is first in, first out: what it accepted is what it handled, then what its
      worker holds, then what is queued; and an event goes only to the lane of its key. */
  lemma LanesAreFifo(cfg: Config, steps: seq<Step>, l: nat)
    requires ValidConfig(cfg) && l < cfg.lanes
    ensures var s := Run(cfg, steps);
      && s.accepted[l] == s.handled[l] + InFlight(s.workers[l]) + s.lanes[l].queue
      && |s.lanes[l].queue| <= cfg.capacity
      && forall ev :: ev in s.accepted[l] ==> LaneOf(cfg, ev) == l
  {
    RunInv(cfg, steps);
    assert LaneOk(cfg, Run(cfg, steps), l);
  }

  /** In every run, the events of one key share a lane: those that carry the same routing key,
      and those without one that agree in tenant, app and topic. */
  lemma SameKeySameLane(cfg: Config, steps: seq<Step>, l: nat, m: nat, e: Event, f: Event)
    requires ValidConfig(cfg) && l < cfg.lanes && m < cfg.lanes
    requires e in Run(cfg, steps).accepted[l] && f in Run(cfg, steps).accepted[m]
    requires
      || e.routingKey == f.routingKey != ""
      || (e.routingKey == f.routingKey == "" && e.tenantID == f.tenantID && e.appID == f.appID && e.topicID == f.topicID)
    ensures l == m
  {
    LanesAreFifo(cfg, steps, l);
    LanesAreFifo(cfg, steps, m);
  }

  // ---- What a Dispatch answers ----

  /** The call has sent its event, or has answered that it did. */
  ghost predicate Sent(call: Call, ev: Event) {
    || (call.DispatchCount? && call.ev == ev)
    || ((call.DispatchUnlock? || call.DispatchDone?) && call.ok && call.ev == ev)
  }

  ghost function SentBy(calls: map<CallId, Call>, ev: Event): set<CallId> {
    set o | o in calls && Sent(calls[o], ev)
  }

  /** As many calls have sent an event as its lane has accepted it. */
  ghost predicate AnswersExact(cfg: Config, s: State, ev: Event)
    requires ValidConfig(cfg) && Wf(cfg, s)
  {
    |SentBy(s.calls, ev)| == multiset(s.accepted[LaneOf(cfg, ev)])[ev]
  }

  lemma SentByUpdate(calls: map<CallId, Call>, o: CallId, call: Call, ev: Event)
    ensures |SentBy(calls[o := call], ev)| ==
            |SentBy(calls, ev)| - (if o in SentBy(calls, ev) then 1 else 0) + (if Sent(call, ev) then 1 else 0)
  {
    var before, after := SentBy(calls, ev), SentBy(calls[o := call], ev);
    assert after - {o} == before - {o};
    SizeWithout(before, o);
    SizeWithout(after, o);
  }

  /** A step of a call that neither sends nor unsends. */
  lemma SameAnswers(cfg: Config, s: State, r: State, o: CallId, call: Call, ev: Event)
    requires ValidConfig(cfg) && Wf(cfg, s) && Wf(cfg, r) && AnswersExact(cfg, s, ev)
    requires r.calls == s.calls[o := call] && r.accepted == s.accepted
    requires Sent(call, ev) <==> o in s.calls && Sent(s.calls[o], ev)
    ensures AnswersExact(cfg, r, ev)
  {
    SentByUpdate(s.calls, o, call, ev);
  }

  lemma SendAnswers(cfg: Config, s: State, o: CallId, ev: Event)
    requires ValidConfig(cfg) && Inv(cfg, s) && o in s.calls && s.calls[o].DispatchSend? && AnswersExact(cfg, s, ev)
    ensures AnswersExact(cfg, AdvanceDispatch(cfg, s, o), ev)
  {
    var r := AdvanceDispatch(cfg, s, o);
    SendStep(cfg, s, o);
    SentByUpdate(s.calls, o, r.calls[o], ev);
  }

  lemma DispatchAnswers(cfg: Config, s: State, o: CallId, ev: Event)
    requires ValidConfig(cfg) && Inv(cfg, s) && o in s.calls && (s.calls[o].DispatchLock? || Reader(s.calls[o]))
    requires AnswersExact(cfg, s, ev)
    ensures AnswersExact(cfg, AdvanceDispatch(cfg, s, o), ev)
  {
    var r := AdvanceDispatch(cfg, s, o);
    if s.calls[o].DispatchSend? {
      SendAnswers(cfg, s, o, ev);
    } else if r != s {
      SameAnswers(cfg, s, r, o, r.calls[o], ev);
    }
  }

  /** A section of a Close that closes a lane. */
  lemma CloseLaneCalls(s: State, o: CallId)
    requires o in s.calls && s.calls[o].CloseLane? && s.calls[o].i < |s.lanes|
    ensures var r := AdvanceClose(s, o);
      r.calls == s.calls[o := r.calls[o]] && r.calls[o].CloseLane?
  {
    assert s.calls[o := s.calls[o]] == s.calls;
  }

  /** A section of a Close does not touch what a Dispatch has answered. */
  lemma CloseSends(s: State, o: CallId, ev: Event)
    requires o in s.calls && !s.calls[o].DispatchLock? && !Reader(s.calls[o])
    requires !(s.calls[o].CloseLane? && s.calls[o].i < |s.lanes|)
    ensures Sent(AdvanceClose(s, o).calls[o], ev) <==> Sent(s.calls[o], ev)
  {
  }

  lemma CloseAnswers(cfg: Config, s: State, o: CallId, ev: Event)
    requires ValidConfig(cfg) && Wf(cfg, s) && o in s.calls && !s.calls[o].DispatchLock? && !Reader(s.calls[o])
    requires AnswersExact(cfg, s, ev)
    ensures AnswersExact(cfg, AdvanceClose(s, o), ev)
  {
    if s.calls[o].CloseLane? && s.calls[o].i < |s.lanes| {
      CloseLaneCalls(s, o);
    } else {
      CloseStep(s, o);
      CloseSends(s, o, ev);
    }
    SameAnswers(cfg, s, AdvanceClose(s, o), o, AdvanceClose(s, o).calls[o], ev);
  }

  lemma NextAnswers(cfg: Config, s: State, step: Step, ev: Event)
    requires ValidConfig(cfg) && Inv(cfg, s) && AnswersExact(cfg, s, ev)
    ensures AnswersExact(cfg, Next(cfg, s, step), ev)
  {
    match step {
      case StartDispatch(o, e) =>
        if o !in s.calls { SameAnswers(cfg, s, Next(cfg, s, step), o, DispatchLock(e), ev); }
      case StartClose(o) =>
        if o !in s.calls { SameAnswers(cfg, s, Next(cfg, s, step), o, CloseSwap, ev); }
      case TimeOut(o) =>
        if o in s.calls && s.calls[o].CloseWait? { SameAnswers(cfg, s, Next(cfg, s, step), o, CloseCancel(false), ev); }
      case Advance(o) =>
        if o in s.calls {
          if s.calls[o].DispatchLock? || Reader(s.calls[o]) { DispatchAnswers(cfg, s, o, ev); } else { CloseAnswers(cfg, s, o, ev); }
        }
      case Work(l) =>
    }
  }

  /** In every run, each event was accepted by its lane exactly as often as a Dispatch of it has
      answered true or is about to: no acceptance is denied and no answer is made up. */
  lemma {:induction false} AnswersAreExact(cfg: Config, steps: seq<Step>, ev: Event)
    requires ValidConfig(cfg)
    ensures AnswersExact(cfg, Run(cfg, steps), ev)
  {
    if steps == [] {
      assert SentBy(map[], ev) == {};
    } else {
      RunInv(cfg, steps[..|steps| - 1]);
      AnswersAreExact(cfg, steps[..|steps| - 1], ev);
      NextAnswers(cfg, Run(cfg, steps[..|steps| - 1]), steps[|steps| - 1], ev);
    }
  }

  /** In every run, a Dispatch with the read lock goes on exactly when the dispatcher is not
      closed, and its event is then accepted, as the last of its lane, exactly when the lane has
      room. */
  lemma DispatchAccepts(cfg: Config, steps: seq<Step>, o: CallId, ev: Event)
    requires ValidConfig(cfg) && o in Run(cfg, steps).calls
    ensures var s := Run(cfg, steps);
      var r, l := Next(cfg, s, Advance(o)), LaneOf(cfg, ev);
      && (s.calls[o] == DispatchCheck(ev) ==>
            r.calls[o] == if s.closed then DispatchUnlock(ev, false) else DispatchSend(ev))
      && (s.calls[o] == DispatchSend(ev) ==>
            if |s.lanes[l].queue| < cfg.capacity
            then r.lanes[l].queue == s.lanes[l].queue + [ev] && r.accepted[l] == s.accepted[l] + [ev] && r.calls[o] == DispatchCount(ev)
            else r.lanes == s.lanes && r.calls[o] == DispatchUnlock(ev, false))
  {
    RunInv(cfg, steps);
    var s := Run(cfg, steps);
    if s.calls[o] == DispatchSend(ev) {
      assert CallOk(s, o, s.calls[o]) && LaneOk(cfg, s, LaneOf(cfg, ev));
    }
  }

  /** In every run, a worker that is ready takes the first event of its lane, if there is one, and
      handles it before it is ready again; without one it ends exactly when the lane is closed. */
  lemma WorkerProgress(cfg: Config, steps: seq<Step>, l: nat)
    requires ValidConfig(cfg) && l < cfg.lanes
    ensures var s := Run(cfg, steps);
      var r := Next(cfg, s, Work(l));
      match s.workers[l]
      case Receiving =>
        if s.lanes[l].queue != [] then r.workers[l] == Decrementing(s.lanes[l].queue[0]) && r.lanes[l].queue == s.lanes[l].queue[1..]
        else r.workers[l] == if s.lanes[l].closed then Exited else Receiving
      case Decrementing(ev) => r.workers[l] == Handling(ev) && r.depth == s.depth - 1
      case Handling(ev) => r.workers[l] == Receiving && r.handled[l] == s.handled[l] + [ev]
      case Exited => r == s
  {
  }

  /** When a Close leaves its wait because all workers are done, every accepted event has
      been handled, the context has not been cancelled before, all lanes are closed and
      empty, and the depth is zero; and this is still so after Close has returned. */
  lemma DrainIsComplete(cfg: Config, steps: seq<Step>, o: CallId)
    requires ValidConfig(cfg)
    requires var s := Run(cfg, steps); o in s.calls && (s.calls[o] == CloseCancel(true) || s.calls[o] == CloseDone(true))
    ensures var s := Run(cfg, steps);
      && s.accepted == s.handled && s.depth == 0
      && (forall l :: 0 <= l < cfg.lanes ==> s.lanes[l].queue == [] && s.lanes[l].closed)
      && (s.calls[o].CloseCancel? ==> !s.cancelled)
  {
    RunInv(cfg, steps);
    var s := Run(cfg, steps);
    assert CallOk(s, o, s.calls[o]);
    forall l | 0 <= l < cfg.lanes
      ensures s.accepted[l] == s.handled[l] && s.lanes[l].queue == [] && s.lanes[l].closed
    {
      assert LaneOk(cfg, s, l);
    }
    NothingQueued(s.lanes, s.workers);
    assert Uncounted(s.calls) == {} by {
      assert forall p :: p in s.calls ==> CallOk(s, p, s.calls[p]);
    }
  }

  // ---- The depth can be negative for a moment ----

  const EVENT := Event("k", "t", "a", "p", "e")

  const ONE_LANE := Config(1, 1, key => 0)

  ghost predicate Reached(s: State) {
    exists steps :: s == Run(ONE_LANE, steps)
  }

  lemma Go(s: State, step: Step) returns (r: State)
    requires Reached(s) && Wf(ONE_LANE, s)
    ensures Reached(r) && Wf(ONE_LANE, r) && r == Next(ONE_LANE, s, step)
  {
    var steps :| s == Run(ONE_LANE, steps);
    assert (steps + [step])[..|steps + [step]| - 1] == steps;
    r := Run(ONE_LANE, steps + [step]);
  }

  /** A Dispatch passes its check. */
  lemma Checked() returns (s: State)
    ensures Reached(s) && Wf(ONE_LANE, s) && 0 in s.calls && s.calls[0] == DispatchSend(EVENT)
    ensures s.lanes == [Lane([], false)] && s.workers == [Receiving] && s.depth == 0
  {
    s := Init(ONE_LANE);
    assert s == Run(ONE_LANE, []);
    s := Go(s, StartDispatch(0, EVENT));
    s := Go(s, Advance(0));
    s := Go(s, Advance(0));
  }

  /** It sends, and the worker receives and subtracts before the sender has added. */
  lemma DepthCanBeNegative()
    ensures exists steps :: Run(ONE_LANE, steps).depth == -1
  {
    var s := Checked();
    s := Go(s, Advance(0));
    s := Go(s, Work(0));
    s := Go(s, Work(0));
  }
}
