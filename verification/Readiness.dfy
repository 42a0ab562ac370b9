/** The readiness cache: a fast path under a read lock, a probe mutex, a second look, and one
    round of probes, interleaved over any number of requests with a clock that never goes
    back. */
module Readiness {
  import opened Options

  /** Two seconds, in nanoseconds. */
  const TTL: nat := 2_000_000_000

  /** What one probe says: `None` for no error. */
  type Outcome = Option<string>

  datatype Report = Report(allReady: bool, details: map<string, string>)

  /** A completed round of probes (history). */
  datatype Round = Round(start: nat, recorded: nat, outcomes: seq<Outcome>)

  /** A reply: the report, when it was settled, and the round that it is from (history). */
  datatype Reply = Reply(report: Report, at: nat, round: int, own: bool)

  datatype Cache = Cache(cachedAt: nat, report: Report)

  /** Where a request stands. */
  datatype Request =
    | Checking                                            // before the fast path
    | Waiting                                             // for the probe mutex
    | Locked                                              // before the second look
    | MustProbe                                           // the second look found nothing fresh
    | Probing(start: nat, outcomes: seq<Outcome>, report: Report)
    | Recorded(report: Report)                            // before the reply
    | Replied                                             // still holding the mutex
    | Finished

  datatype State = State(
    now: nat,
    cache: Option<Cache>,
    mutex: Option<nat>,
    requests: map<nat, Request>,
    rounds: seq<Round>,
    replies: seq<Reply>)

  datatype Step =
    | Tick(d: nat)
    | Arrive(r: nat)
    | FastPath(r: nat)
    | Lock(r: nat)
    | SecondLook(r: nat)
    | StartProbes(r: nat)
    | Probe(r: nat, outcome: Outcome)
    | Record(r: nat)
    | Respond(r: nat)
    | Unlock(r: nat)

  const INIT := State(0, None, None, map[], [], [])

  predicate Fresh(s: State) {
    s.cache.Some? && s.now - s.cache.value.cachedAt < TTL
  }

  const EMPTY := Report(true, map[])

  function Noted(report: Report, name: string, outcome: Outcome): Report {
    match outcome
    case Some(e) => Report(false, report.details[name := e])
    case None => Report(report.allReady, report.details[name := "ok"])
  }

  function At(s: State, r: nat): Option<Request> {
    if r in s.requests then Some(s.requests[r]) else None
  }

  function Goto(s: State, r: nat, q: Request): State {
    s.(requests := s.requests[r := q])
  }

  function ReplyFromCache(s: State): State
    requires s.cache.Some?
  {
    s.(replies := s.replies + [Reply(s.cache.value.report, s.now, |s.rounds| - 1, false)])
  }

  /** One step; a step that is not enabled changes nothing.  `names` are the
      checkers, those that are nil left out. */
  function Next(names: seq<string>, s: State, step: Step): State {
    match step
    case Tick(d) => s.(now := s.now + d)
    case Arrive(r) => if At(s, r).None? then Goto(s, r, Checking) else s
    case FastPath(r) =>
      if At(s, r) != Some(Checking) then s
      else if Fresh(s) then Goto(ReplyFromCache(s), r, Finished)
      else Goto(s, r, Waiting)
    case Lock(r) =>
      if At(s, r) == Some(Waiting) && s.mutex.None? then Goto(s, r, Locked).(mutex := Some(r)) else s
    case SecondLook(r) =>
      if At(s, r) != Some(Locked) then s
      else if Fresh(s) then Goto(ReplyFromCache(s), r, Replied)
      else Goto(s, r, MustProbe)
    case StartProbes(r) =>
      if At(s, r) == Some(MustProbe) then Goto(s, r, Probing(s.now, [], EMPTY)) else s
    case Probe(r, outcome) =>
      if At(s, r).Some? && At(s, r).value.Probing? && |At(s, r).value.outcomes| < |names| then
        var p := At(s, r).value;
        Goto(s, r, Probing(p.start, p.outcomes + [outcome], Noted(p.report, names[|p.outcomes|], outcome)))
      else s
    case Record(r) =>
      if At(s, r).Some? && At(s, r).value.Probing? && |At(s, r).value.outcomes| == |names| then
        var p := At(s, r).value;
        Goto(s, r, Recorded(p.report)).(
          cache := Some(Cache(s.now, p.report)),
          rounds := s.rounds + [Round(p.start, s.now, p.outcomes)])
      else s
    case Respond(r) =>
      if At(s, r).Some? && At(s, r).value.Recorded? then
        Goto(s, r, Replied).(replies := s.replies + [Reply(At(s, r).value.report, s.now, |s.rounds| - 1, true)])
      else s
    case Unlock(r) =>
      if At(s, r) == Some(Replied) then Goto(s, r, Finished).(mutex := None) else s
  }

  function Run(names: seq<string>, s: State, steps: seq<Step>): State {
    if steps == [] then s else Next(names, Run(names, s, steps[..|steps| - 1]), steps[|steps| - 1])
  }

  // ---- What a round reports ----

  /** The report of a whole round. */
  function Summary(names: seq<string>, outcomes: seq<Outcome>): Report
    requires |outcomes| <= |names|
  {
    if outcomes == [] then EMPTY
    else
      var n := |outcomes| - 1;
      Noted(Summary(names, outcomes[..n]), names[n], outcomes[n])
  }

  /** All is ready exactly when no probe failed, and the details name every checker. */
  lemma {:induction false} SummaryMeans(names: seq<string>, outcomes: seq<Outcome>)
    requires |outcomes| <= |names|
    ensures Summary(names, outcomes).allReady <==> forall i :: 0 <= i < |outcomes| ==> outcomes[i].None?
    ensures forall name :: name in Summary(names, outcomes).details <==> name in names[..|outcomes|]
  {
    if outcomes == [] {
    } else {
      var n := |outcomes| - 1;
      SummaryMeans(names, outcomes[..n]);
      assert names[..|outcomes|] == names[..n] + [names[n]];
      assert forall i :: 0 <= i < n ==> outcomes[..n][i] == outcomes[i];
    }
  }

  /** Where the checkers have distinct names, the details tell each outcome. */
  lemma {:induction false} SummaryTells(names: seq<string>, outcomes: seq<Outcome>, i: nat)
    requires i < |outcomes| <= |names| && forall j, k :: 0 <= j < k < |names| ==> names[j] != names[k]
    ensures names[i] in Summary(names, outcomes).details
    ensures Summary(names, outcomes).details[names[i]] == if outcomes[i].Some? then outcomes[i].value else "ok"
    decreases |outcomes|
  {
    if i < |outcomes| - 1 {
      SummaryTells(names, outcomes[..|outcomes| - 1], i);
    }
  }

  // ---- The invariant ----

  ghost predicate HoldsMutex(q: Request) {
    q.Locked? || q.MustProbe? || q.Probing? || q.Recorded? || q.Replied?
  }

  /** The last round, if any, was recorded at least two seconds before `t`. */
  ghost predicate LongAgo(rounds: seq<Round>, t: nat) {
    rounds != [] ==> rounds[|rounds| - 1].recorded + TTL <= t
  }

  ghost predicate RequestInv(names: seq<string>, s: State, r: nat, q: Request) {
    && (HoldsMutex(q) <==> s.mutex == Some(r))
    && (q.MustProbe? ==> LongAgo(s.rounds, s.now))
    && (q.Probing? ==>
          && LongAgo(s.rounds, q.start) && q.start <= s.now
          && |q.outcomes| <= |names| && q.report == Summary(names, q.outcomes))
    && (q.Recorded? ==> s.rounds != [] && s.cache.Some? && q.report == s.cache.value.report)
  }

  ghost predicate CacheInv(names: seq<string>, s: State) {
    && (s.cache.Some? <==> s.rounds != [])
    && (s.cache.Some? ==>
          var last := s.rounds[|s.rounds| - 1];
          s.cache.value.cachedAt == last.recorded && |last.outcomes| == |names|
          && s.cache.value.report == Summary(names, last.outcomes))
  }

  ghost predicate RoundsInv(names: seq<string>, s: State) {
    && (forall i :: 0 <= i < |s.rounds| ==>
          s.rounds[i].start <= s.rounds[i].recorded <= s.now && |s.rounds[i].outcomes| == |names|)
    && (forall i, j :: 0 <= i < j < |s.rounds| ==> s.rounds[i].recorded + TTL <= s.rounds[j].start)
  }

  ghost predicate ReplyInv(names: seq<string>, s: State, y: Reply) {
    && 0 <= y.round < |s.rounds| && |s.rounds[y.round].outcomes| == |names|
    && y.report == Summary(names, s.rounds[y.round].outcomes)
    && s.rounds[y.round].recorded <= y.at
    && (!y.own ==> y.at - s.rounds[y.round].recorded < TTL)
    && (y.round + 1 < |s.rounds| ==> y.at <= s.rounds[y.round + 1].recorded)
    && y.at <= s.now
  }

  ghost predicate Inv(names: seq<string>, s: State) {
    && CacheInv(names, s)
    && RoundsInv(names, s)
    && (forall r :: r in s.requests ==> RequestInv(names, s, r, s.requests[r]))
    && (s.mutex.Some? ==> s.mutex.value in s.requests)
    && (forall i :: 0 <= i < |s.replies| ==> ReplyInv(names, s, s.replies[i]))
  }

  lemma RecordKeeps(names: seq<string>, s: State, r: nat)
    requires Inv(names, s)
    ensures Inv(names, Next(names, s, Record(r)))
  {
    var s' := Next(names, s, Record(r));
    if s' != s {
      assert RequestInv(names, s, r, s.requests[r]);
      forall i | 0 <= i < |s'.replies| ensures ReplyInv(names, s', s'.replies[i]) {
        assert ReplyInv(names, s, s.replies[i]);
      }
      forall q | q in s'.requests ensures RequestInv(names, s', q, s'.requests[q]) {
        assert q != r ==> RequestInv(names, s, q, s.requests[q]);
      }
    }
  }

  lemma TickKeeps(names: seq<string>, s: State, d: nat)
    requires Inv(names, s)
    ensures Inv(names, Next(names, s, Tick(d)))
  {
  }

  /** A step of one request that leaves the clock, the cache, the rounds and the replies alone. */
  lemma MoveKeeps(names: seq<string>, s: State, s': State, r: nat)
    requires Inv(names, s) && s' == s.(requests := s'.requests, mutex := s'.mutex)
    requires s'.requests.Keys == s.requests.Keys + {r}
    requires forall q :: q in s.requests && q != r ==> s'.requests[q] == s.requests[q] && (s'.mutex == Some(q) <==> s.mutex == Some(q))
    requires RequestInv(names, s', r, s'.requests[r]) && (s'.mutex.Some? ==> s'.mutex.value in s'.requests)
    ensures Inv(names, s')
  {
  }

  lemma ReplyKeeps(names: seq<string>, s: State, y: Reply)
    requires Inv(names, s) && ReplyInv(names, s, y)
    ensures Inv(names, s.(replies := s.replies + [y]))
  {
    var s' := s.(replies := s.replies + [y]);
    forall q | q in s'.requests ensures RequestInv(names, s', q, s'.requests[q]) {
      assert RequestInv(names, s, q, s.requests[q]);
    }
    forall i | 0 <= i < |s'.replies| ensures ReplyInv(names, s', s'.replies[i]) {
      assert i < |s.replies| ==> ReplyInv(names, s, s.replies[i]);
    }
  }

  lemma ReplyingKeeps(names: seq<string>, s: State, step: Step)
    requires Inv(names, s) && (step.FastPath? || step.SecondLook? || step.Respond?)
    ensures Inv(names, Next(names, s, step))
  {
    var s', r := Next(names, s, step), step.r;
    if s' != s {
      assert RequestInv(names, s, r, s.requests[r]);
      if s'.replies == s.replies {
        MoveKeeps(names, s, s', r);
      } else {
        var y := s'.replies[|s.replies|];
        ReplyKeeps(names, s, y);
        MoveKeeps(names, s.(replies := s.replies + [y]), s', r);
      }
    }
  }

  lemma OtherKeeps(names: seq<string>, s: State, step: Step)
    requires Inv(names, s)
    requires step.Arrive? || step.Lock? || step.StartProbes? || step.Probe? || step.Unlock?
    ensures Inv(names, Next(names, s, step))
  {
    var s', r := Next(names, s, step), step.r;
    if s' != s {
      assert r in s.requests ==> RequestInv(names, s, r, s.requests[r]);
      MoveKeeps(names, s, s', r);
    }
  }

  lemma {:induction false} RunInv(names: seq<string>, steps: seq<Step>)
    ensures Inv(names, Run(names, INIT, steps))
    decreases |steps|
  {
    if steps == [] {
    } else {
      var step := steps[|steps| - 1];
      var s := Run(names, INIT, steps[..|steps| - 1]);
      RunInv(names, steps[..|steps| - 1]);
      match step
      case Tick(d) => TickKeeps(names, s, d);
      case Record(r) => RecordKeeps(names, s, r);
      case FastPath(_) => ReplyingKeeps(names, s, step);
      case SecondLook(_) => ReplyingKeeps(names, s, step);
      case Respond(_) => ReplyingKeeps(names, s, step);
      case _ => OtherKeeps(names, s, step);
    }
  }

  // ---- The promises ----

  /** In every run: at most one request probes at a time, and each round starts at least two
      seconds after the one before it was recorded; so does a round that is still running. */
  lemma RoundsNeverOverlap(names: seq<string>, steps: seq<Step>)
    ensures var s := Run(names, INIT, steps);
      && (forall a, b :: a in s.requests && b in s.requests && s.requests[a].Probing? && s.requests[b].Probing? ==> a == b)
      && (forall a, i :: a in s.requests && s.requests[a].Probing? && 0 <= i < |s.rounds| ==>
            s.rounds[i].recorded + 2_000_000_000 <= s.requests[a].start)
      && (forall i, j :: 0 <= i < j < |s.rounds| ==> s.rounds[i].recorded + 2_000_000_000 <= s.rounds[j].start)
  {
    RunInv(names, steps);
    var s := Run(names, INIT, steps);
    forall a | a in s.requests && s.requests[a].Probing?
      ensures s.mutex == Some(a) && LongAgo(s.rounds, s.requests[a].start)
    {
      assert RequestInv(names, s, a, s.requests[a]);
    }
    LongAgoAll(names, s);
  }

  /** What is long after the last round is long after every round. */
  lemma LongAgoAll(names: seq<string>, s: State)
    requires RoundsInv(names, s)
    ensures forall t: nat, i :: LongAgo(s.rounds, t) && 0 <= i < |s.rounds| ==> s.rounds[i].recorded + TTL <= t
  {
    forall i | 0 <= i < |s.rounds| ensures s.rounds[i].recorded <= s.rounds[|s.rounds| - 1].recorded {
      var last := |s.rounds| - 1;
      assert i < last ==> s.rounds[i].recorded + TTL <= s.rounds[last].start;
    }
  }

  /** In every run: each reply is the report of one single completed round; it is the round's
      own request that replies, or the round was the latest and less than two seconds old. */
  lemma RepliesComeFromOneRound(names: seq<string>, steps: seq<Step>, k: nat)
    requires k < |Run(names, INIT, steps).replies|
    ensures var s := Run(names, INIT, steps);
      var y := s.replies[k];
      && 0 <= y.round < |s.rounds| && |s.rounds[y.round].outcomes| == |names|
      && y.report == Summary(names, s.rounds[y.round].outcomes)
      && s.rounds[y.round].recorded <= y.at
      && (y.own || y.at < s.rounds[y.round].recorded + 2_000_000_000)
      && (y.round + 1 < |s.rounds| ==> y.at <= s.rounds[y.round + 1].recorded)
  {
    RunInv(names, steps);
    assert ReplyInv(names, Run(names, INIT, steps), Run(names, INIT, steps).replies[k]);
  }

  /** In every run, a request is answered from the cache at once exactly when the last round was
      recorded less than two seconds ago; otherwise it waits for the mutex and looks again, and
      probes exactly when there is still no such round. */
  lemma CacheAnswersExactly(names: seq<string>, steps: seq<Step>, r: nat)
    ensures var s := Run(names, INIT, steps);
      var young := s.rounds != [] && s.now < s.rounds[|s.rounds| - 1].recorded + 2_000_000_000;
      && (At(s, r) == Some(Checking) ==>
            var t := Next(names, s, FastPath(r));
            t.rounds == s.rounds && |t.replies| == |s.replies| + (if young then 1 else 0)
            && At(t, r) == Some(if young then Finished else Waiting))
      && (At(s, r) == Some(Locked) ==>
            var t := Next(names, s, SecondLook(r));
            t.rounds == s.rounds && |t.replies| == |s.replies| + (if young then 1 else 0)
            && At(t, r) == Some(if young then Replied else MustProbe))
  {
    RunInv(names, steps);
  }
}
