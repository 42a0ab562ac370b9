/** The bounded send queue of a client and its three backpressure policies. */
module ClientQueue {

  /** An immutable, already serialized frame. */
  datatype Frame = Frame(data: string)

  const DISCONNECT := "disconnect"
  const DROP_OLDEST := "drop_oldest"
  const DROP_NEWEST := "drop_newest"

  datatype Queue = Queue(send: seq<Frame>, closed: bool)

  /** The queue after a frame is offered, and whether the frame was accepted. */
  function Offer(q: Queue, capacity: nat, policy: string, f: Frame): (Queue, bool) {
    if q.closed then
      (q, false)
    else if |q.send| < capacity then
      (q.(send := q.send + [f]), true)
    else if policy == DROP_OLDEST then
      var rest := if q.send != [] then q.send[1..] else q.send;
      if |rest| < capacity then (q.(send := rest + [f]), true) else (q.(send := rest), false)
    else if policy == DROP_NEWEST then
      (q, false)
    else
      (q.(closed := true), false)
  }

  /** The last `n` frames of a sequence, or all of them if there are fewer. */
  function Last(frames: seq<Frame>, n: nat): seq<Frame> {
    if |frames| <= n then frames else frames[|frames| - n..]
  }

  /** An open queue accepts a frame exactly when it has room or drops its oldest frames; it then
      holds the last frames that fit, the new one included.  What is not accepted leaves the
      frames as they are, and closes the queue exactly under a policy that drops nothing. */
  lemma OfferMeans(q: Queue, capacity: nat, policy: string, f: Frame)
    requires capacity > 0 && |q.send| <= capacity
    ensures var (r, ok) := Offer(q, capacity, policy, f);
      && (ok <==> !q.closed && (|q.send| < capacity || policy == "drop_oldest"))
      && r.send == (if ok then Last(q.send + [f], capacity) else q.send)
      && (ok ==> r.send != [] && r.send[|r.send| - 1] == f)
      && (r.closed <==> q.closed || (|q.send| == capacity && policy != "drop_oldest" && policy != "drop_newest"))
  {
  }

  /** The queue after a frame is offered `n` times. */
  function OfferTimes(q: Queue, capacity: nat, policy: string, f: Frame, n: nat): Queue {
    if n == 0 then q else Offer(OfferTimes(q, capacity, policy, f, n - 1), capacity, policy, f).0
  }

  // ---- Whole runs of atomic offers, takes and closes ----

  datatype Act = Offering(f: Frame) | Taking | Closing

  /** The queue with its history: the frames offered, those offered while it was open, those
      accepted, and those the writer has taken. */
  datatype Log = Log(q: Queue, offered: seq<Frame>, heard: seq<Frame>, accepted: seq<Frame>, taken: seq<Frame>)

  const START := Log(Queue([], false), [], [], [], [])

  function Step(log: Log, capacity: nat, policy: string, act: Act): Log {
    match act
    case Offering(f) =>
      var (q, ok) := Offer(log.q, capacity, policy, f);
      Log(q, log.offered + [f], if log.q.closed then log.heard else log.heard + [f],
          if ok then log.accepted + [f] else log.accepted, log.taken)
    case Taking =>
      if log.q.send == [] then log
      else log.(q := log.q.(send := log.q.send[1..]), taken := log.taken + [log.q.send[0]])
    case Closing => log.(q := log.q.(closed := true))
  }

  function Run(capacity: nat, policy: string, acts: seq<Act>): Log {
    if acts == [] then START
    else Step(Run(capacity, policy, acts[..|acts| - 1]), capacity, policy, acts[|acts| - 1])
  }

  ghost predicate Suffix<T>(s: seq<T>, t: seq<T>) {
    |s| <= |t| && t[|t| - |s|..] == s
  }

  /** What each policy keeps of the frames, given as the policy's kind. */
  ghost predicate Keeps(log: Log, oldest: bool, newest: bool) {
    && (oldest ==> Suffix(log.q.send, log.heard))
    && (newest ==> log.taken + log.q.send == log.accepted)
    && (!oldest && !newest ==>
          && log.taken + log.q.send <= log.offered
          && (!log.q.closed ==> log.taken + log.q.send == log.offered))
  }

  ghost predicate Inv(log: Log, capacity: nat, policy: string) {
    |log.q.send| <= capacity && Keeps(log, policy == DROP_OLDEST, policy == DROP_NEWEST)
  }

  lemma TakeKeeps(log: Log, oldest: bool, newest: bool)
    requires Keeps(log, oldest, newest) && log.q.send != []
    ensures Keeps(log.(q := log.q.(send := log.q.send[1..]), taken := log.taken + [log.q.send[0]]), oldest, newest)
  {
  }

  lemma AppendKeeps(log: Log, f: Frame, oldest: bool, newest: bool)
    requires Keeps(log, oldest, newest) && !log.q.closed
    ensures Keeps(Log(log.q.(send := log.q.send + [f]), log.offered + [f], log.heard + [f], log.accepted + [f], log.taken),
                  oldest, newest)
  {
  }

  lemma StepKeeps(log: Log, capacity: nat, policy: string, act: Act)
    requires capacity > 0 && Inv(log, capacity, policy)
    ensures Inv(Step(log, capacity, policy, act), capacity, policy)
  {
    var oldest, newest := policy == DROP_OLDEST, policy == DROP_NEWEST;
    assert !(oldest && newest);
    if act.Taking? && log.q.send != [] {
      TakeKeeps(log, oldest, newest);
    } else if act.Offering? && !log.q.closed && (oldest || |log.q.send| < capacity) {
      var open := if |log.q.send| < capacity then log else log.(q := log.q.(send := log.q.send[1..]));
      AppendKeeps(open, act.f, oldest, newest);
    }
  }

  lemma {:induction false} RunInv(capacity: nat, policy: string, acts: seq<Act>)
    requires capacity > 0
    ensures Inv(Run(capacity, policy, acts), capacity, policy)
  {
    if acts == [] {
    } else {
      RunInv(capacity, policy, acts[..|acts| - 1]);
      StepKeeps(Run(capacity, policy, acts[..|acts| - 1]), capacity, policy, acts[|acts| - 1]);
    }
  }

  /** Over every run: the queue never exceeds its capacity; under `disconnect` or an unknown
      policy what the writer took and will take is a prefix of what was offered, so there is
      no gap; under `drop_oldest` the queue is a suffix of what was offered while open; under
      `drop_newest` no accepted frame is ever discarded or reordered. */
  lemma Backpressure(capacity: nat, policy: string, acts: seq<Act>)
    requires capacity > 0
    ensures var log := Run(capacity, policy, acts);
      && |log.q.send| <= capacity
      && (policy != DROP_NEWEST && policy != DROP_OLDEST ==> log.taken + log.q.send <= log.offered)
      && (policy == DROP_OLDEST ==> Suffix(log.q.send, log.heard))
      && (policy == DROP_NEWEST ==> log.taken + log.q.send == log.accepted)
  {
    RunInv(capacity, policy, acts);
  }

  /** Nothing is accepted after Close, whatever happens next. */
  lemma {:induction false} NothingAfterClose(capacity: nat, policy: string, acts: seq<Act>, more: seq<Act>)
    requires Run(capacity, policy, acts).q.closed
    ensures var log := Run(capacity, policy, acts + more);
      && log.q.closed
      && log.accepted == Run(capacity, policy, acts).accepted
      && log.heard == Run(capacity, policy, acts).heard
  {
    if more == [] {
      assert acts + more == acts;
    } else {
      NothingAfterClose(capacity, policy, acts, more[..|more| - 1]);
      assert (acts + more)[..|acts + more| - 1] == acts + more[..|more| - 1];
    }
  }
}
