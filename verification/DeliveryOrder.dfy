/** Per-key order from the bus to a client's writer, over every run. */
module DeliveryOrder {
  import opened Sequences
  import opened Hashing
  import opened Delivery

  /** The item is built from an event of lane `l`. */
  ghost predicate OfLane(cfg: Config, item: Item, l: nat)
    requires ValidConfig(cfg)
  {
    item.Data? && item.i < |cfg.bus| && LaneOf(cfg, item.i) == l
  }

  /** Everything that reached client `c`, in the order in which its writer sees it. */
  ghost function Reached(s: State, c: nat): seq<Item>
    requires c < |s.taken| == |s.boxes|
  {
    s.taken[c] + s.boxes[c].send
  }

  /** Within each lane, bus order. */
  ghost predicate Ordered(cfg: Config, items: seq<Item>)
    requires ValidConfig(cfg)
  {
    forall a, b, l :: 0 <= a < b < |items| && OfLane(cfg, items[a], l) && OfLane(cfg, items[b], l) ==> items[a].i < items[b].i
  }

  ghost predicate Below(cfg: Config, items: seq<Item>, l: nat, limit: nat)
    requires ValidConfig(cfg)
  {
    forall a :: 0 <= a < |items| && OfLane(cfg, items[a], l) ==> items[a].i < limit
  }

  /** The first event of lane `l` that client `c` may still get. */
  ghost function Limit(cfg: Config, s: State, c: nat, l: nat): nat
    requires Wf(cfg, s) && l < cfg.lanes
  {
    match s.workers[l]
    case Idle => if s.lanes[l] == [] then s.next else s.lanes[l][0]
    case Received(i) => i
    case Fanout(item, todo, _) => if item.Beat? then 0 else if c in todo then item.i else item.i + 1
  }

  /** The events on their way in lane `l`. */
  ghost function Pending(cfg: Config, s: State, l: nat): seq<nat>
    requires Wf(cfg, s) && l < cfg.lanes
  {
    (match s.workers[l]
     case Idle => []
     case Received(i) => [i]
     case Fanout(item, _, _) => if item.Data? then [item.i] else [])
    + s.lanes[l]
  }

  /** Events of lane `l` that the consumer has passed on, in bus order. */
  ghost predicate Queued(cfg: Config, p: seq<nat>, next: nat, l: nat)
    requires ValidConfig(cfg) && next <= |cfg.bus|
  {
    && (forall a :: 0 <= a < |p| ==> p[a] < next && LaneOf(cfg, p[a]) == l)
    && (forall a, b :: 0 <= a < b < |p| ==> p[a] < p[b])
  }

  lemma QueuedTail(cfg: Config, p: seq<nat>, next: nat, l: nat)
    requires ValidConfig(cfg) && next <= |cfg.bus| && p != [] && Queued(cfg, p, next, l)
    ensures Queued(cfg, p[1..], next, l) && (p[1..] != [] ==> p[0] < p[1..][0])
  {
  }

  ghost predicate LaneOk(cfg: Config, s: State, l: nat)
    requires ValidConfig(cfg) && Wf(cfg, s) && l < cfg.lanes
  {
    && Queued(cfg, Pending(cfg, s, l), s.next, l)
    && (s.workers[l].Fanout? ==> s.workers[l].item.Data? && Distinct(s.workers[l].todo))
  }

  ghost predicate ClientOk(cfg: Config, s: State, c: nat)
    requires ValidConfig(cfg) && Wf(cfg, s) && c < cfg.clients
  {
    && (forall a :: 0 <= a < |Reached(s, c)| && Reached(s, c)[a].Data? ==> Reached(s, c)[a].i < s.next)
    && Ordered(cfg, Reached(s, c))
    && forall l :: 0 <= l < cfg.lanes ==> Below(cfg, Reached(s, c), l, Limit(cfg, s, c, l))
  }

  ghost predicate Inv(cfg: Config, s: State)
    requires ValidConfig(cfg)
  {
    && Wf(cfg, s)
    && (forall l :: 0 <= l < cfg.lanes ==> LaneOk(cfg, s, l))
    && (forall h :: h in s.beats && s.beats[h].Fanout? ==> s.beats[h].item.Beat?)
    && (forall c :: 0 <= c < cfg.clients ==> ClientOk(cfg, s, c))
  }

  // ---- What happens to one box ----

  /** After one channel operation the client has got one more item, or has lost one that its
      writer had not taken, or nothing has changed. */
  ghost predicate BoxMoves(before: seq<Item>, after: seq<Item>, taken: nat, item: Item) {
    || after == before
    || after == before + [item]
    || (taken < |before| && after == before[..taken] + before[taken + 1..])
  }

  lemma EnqueueMoves(cfg: Config, p: Producer, box: Box, taken: seq<Item>)
    requires p.Fanout? && p.todo != []
    ensures var (p', box') := Enqueue(cfg, p, box);
      && BoxMoves(taken + box.send, taken + box'.send, |taken|, p.item)
      && (p' == NextClient(p) || (p' == p.(stage := p'.stage) && |box'.send| <= |box.send|))
  {
  }

  lemma MovesKeepOrder(cfg: Config, before: seq<Item>, after: seq<Item>, taken: nat, item: Item)
    requires ValidConfig(cfg) && Ordered(cfg, before) && BoxMoves(before, after, taken, item)
    requires after == before + [item] ==> forall l :: OfLane(cfg, item, l) ==> Below(cfg, before, l, item.i)
    ensures Ordered(cfg, after)
  {
  }

  lemma MovesKeepBelow(cfg: Config, before: seq<Item>, after: seq<Item>, taken: nat, item: Item, l: nat, limit: nat, limit': nat)
    requires ValidConfig(cfg) && Below(cfg, before, l, limit) && BoxMoves(before, after, taken, item) && limit <= limit'
    requires after == before + [item] && OfLane(cfg, item, l) ==> item.i < limit'
    ensures Below(cfg, after, l, limit')
  {
  }

  // ---- Every step keeps the order ----

  lemma ConsumeKeeps(cfg: Config, s: State, dispatch: bool)
    requires ValidConfig(cfg) && Inv(cfg, s)
    ensures Inv(cfg, Next(cfg, s, Consume(dispatch)))
  {
    var r := Next(cfg, s, Consume(dispatch));
    forall l | 0 <= l < cfg.lanes ensures LaneOk(cfg, r, l) {
      assert LaneOk(cfg, s, l);
      assert Pending(cfg, r, l) == Pending(cfg, s, l) || Pending(cfg, r, l) == Pending(cfg, s, l) + [s.next];
    }
    forall c | 0 <= c < cfg.clients ensures ClientOk(cfg, r, c) {
      assert ClientOk(cfg, s, c) && Reached(r, c) == Reached(s, c);
      forall l | 0 <= l < cfg.lanes ensures Below(cfg, Reached(r, c), l, Limit(cfg, r, c, l)) {
        assert Below(cfg, Reached(s, c), l, Limit(cfg, s, c, l));
      }
    }
  }

  /** A step that changes no box, and no lane but the worker of `l`. */
  lemma WorkerMoves(cfg: Config, s: State, r: State, l: nat)
    requires ValidConfig(cfg) && Inv(cfg, s) && Wf(cfg, r) && l < cfg.lanes
    requires r == s.(workers := r.workers, lanes := r.lanes)
    requires forall m :: 0 <= m < cfg.lanes && m != l ==> r.workers[m] == s.workers[m] && r.lanes[m] == s.lanes[m]
    requires LaneOk(cfg, r, l) && forall c :: 0 <= c < cfg.clients ==> Limit(cfg, s, c, l) <= Limit(cfg, r, c, l)
    ensures Inv(cfg, r)
  {
    forall m | 0 <= m < cfg.lanes ensures LaneOk(cfg, r, m) {
      assert LaneOk(cfg, s, m);
    }
    forall c | 0 <= c < cfg.clients ensures ClientOk(cfg, r, c) {
      assert ClientOk(cfg, s, c) && Reached(r, c) == Reached(s, c);
      forall m | 0 <= m < cfg.lanes ensures Below(cfg, Reached(r, c), m, Limit(cfg, r, c, m)) {
        assert Below(cfg, Reached(s, c), m, Limit(cfg, s, c, m));
      }
    }
  }

  lemma ReceiveKeeps(cfg: Config, s: State, l: nat)
    requires ValidConfig(cfg) && Inv(cfg, s)
    ensures Inv(cfg, Next(cfg, s, Receive(l)))
  {
    var r := Next(cfg, s, Receive(l));
    if r != s {
      assert LaneOk(cfg, s, l);
      assert Pending(cfg, r, l) == Pending(cfg, s, l);
      WorkerMoves(cfg, s, r, l);
    }
  }

  lemma BroadcastKeeps(cfg: Config, s: State, l: nat, recipients: seq<nat>)
    requires ValidConfig(cfg) && Inv(cfg, s)
    ensures Inv(cfg, Next(cfg, s, Broadcast(l, recipients)))
  {
    var r := Next(cfg, s, Broadcast(l, recipients));
    if r != s {
      assert LaneOk(cfg, s, l);
      assert Pending(cfg, r, l) == Pending(cfg, s, l);
      WorkerMoves(cfg, s, r, l);
    }
  }

  lemma FanoutEnds(cfg: Config, s: State, l: nat)
    requires ValidConfig(cfg) && Inv(cfg, s) && l < cfg.lanes && s.workers[l].Fanout? && s.workers[l].todo == []
    ensures Inv(cfg, s.(workers := s.workers[l := Idle]))
  {
    var r := s.(workers := s.workers[l := Idle]);
    IdleLane(cfg, s, l);
    WorkerMoves(cfg, s, r, l);
  }

  lemma IdleLane(cfg: Config, s: State, l: nat)
    requires ValidConfig(cfg) && Wf(cfg, s) && l < cfg.lanes && LaneOk(cfg, s, l) && s.workers[l].Fanout? && s.workers[l].todo == []
    ensures var r := s.(workers := s.workers[l := Idle]);
      LaneOk(cfg, r, l) && forall c :: 0 <= c < cfg.clients ==> Limit(cfg, s, c, l) <= Limit(cfg, r, c, l)
  {
    var r := s.(workers := s.workers[l := Idle]);
    var p := Pending(cfg, s, l);
    assert p[1..] == s.lanes[l] == Pending(cfg, r, l);
    QueuedTail(cfg, p, s.next, l);
    assert p[0] == s.workers[l].item.i < s.next;
  }

  /** One channel operation on the box of `d`, by a producer of `item`. */
  lemma BoxKeeps(cfg: Config, s: State, r: State, d: nat, item: Item, c: nat)
    requires ValidConfig(cfg) && Wf(cfg, s) && Wf(cfg, r) && c < cfg.clients && d < cfg.clients && ClientOk(cfg, s, c)
    requires r.taken == s.taken && r.next == s.next && r.lanes == s.lanes
    requires forall e :: 0 <= e < cfg.clients && e != d ==> r.boxes[e] == s.boxes[e]
    requires BoxMoves(Reached(s, d), Reached(r, d), |s.taken[d]|, item)
    requires item.Data? ==> item.i < s.next
    requires forall l :: 0 <= l < cfg.lanes ==> Limit(cfg, s, c, l) <= Limit(cfg, r, c, l)
    requires Reached(r, d) == Reached(s, d) + [item] && c == d ==>
      forall l :: 0 <= l < cfg.lanes && OfLane(cfg, item, l) ==> item.i == Limit(cfg, s, c, l) < Limit(cfg, r, c, l)
    ensures ClientOk(cfg, r, c)
  {
    var before, after := Reached(s, c), Reached(r, c);
    if c == d {
      MovesKeepOrder(cfg, before, after, |s.taken[d]|, item);
    }
    forall l | 0 <= l < cfg.lanes ensures Below(cfg, after, l, Limit(cfg, r, c, l)) {
      assert Below(cfg, before, l, Limit(cfg, s, c, l));
      if c == d {
        MovesKeepBelow(cfg, before, after, |s.taken[d]|, item, l, Limit(cfg, s, c, l), Limit(cfg, r, c, l));
      }
    }
  }

  /** A step that leaves lanes and workers as they are, and every client with what it had. */
  lemma OtherKeeps(cfg: Config, s: State, r: State)
    requires ValidConfig(cfg) && Inv(cfg, s) && Wf(cfg, r)
    requires r.next == s.next && r.lanes == s.lanes && r.workers == s.workers
    requires forall h :: h in r.beats && r.beats[h].Fanout? ==> r.beats[h].item.Beat?
    requires forall c :: 0 <= c < cfg.clients ==> Reached(r, c) == Reached(s, c)
    ensures Inv(cfg, r)
  {
    forall m | 0 <= m < cfg.lanes ensures LaneOk(cfg, r, m) {
      assert LaneOk(cfg, s, m) && Pending(cfg, r, m) == Pending(cfg, s, m);
    }
    forall c | 0 <= c < cfg.clients ensures ClientOk(cfg, r, c) {
      assert ClientOk(cfg, s, c);
      assert forall l :: 0 <= l < cfg.lanes ==> Limit(cfg, r, c, l) == Limit(cfg, s, c, l);
    }
  }

  lemma WorkerEnqueueKeeps(cfg: Config, s: State, l: nat)
    requires ValidConfig(cfg) && Inv(cfg, s)
    requires l < cfg.lanes && Sending(s.workers[l], cfg.clients) && s.workers[l].todo != []
    ensures Inv(cfg, Next(cfg, s, WorkerEnqueue(l)))
  {
    var r := Next(cfg, s, WorkerEnqueue(l));
    var p := s.workers[l];
    var d := p.todo[0];
    assert d in p.todo;
    assert LaneOk(cfg, s, l);
    EnqueueMoves(cfg, p, s.boxes[d], s.taken[d]);
    assert d !in p.todo[1..];
    forall m | 0 <= m < cfg.lanes ensures LaneOk(cfg, r, m) {
      assert LaneOk(cfg, s, m);
      assert Pending(cfg, r, m) == Pending(cfg, s, m);
    }
    assert Pending(cfg, s, l)[0] == p.item.i;
    forall c | 0 <= c < cfg.clients ensures ClientOk(cfg, r, c) {
      BoxKeeps(cfg, s, r, d, p.item, c);
    }
  }

  lemma BeatEnqueueKeeps(cfg: Config, s: State, h: nat)
    requires ValidConfig(cfg) && Inv(cfg, s) && h in s.beats && Sending(s.beats[h], cfg.clients)
    ensures Inv(cfg, Next(cfg, s, BeatEnqueue(h)))
  {
    var r := Next(cfg, s, BeatEnqueue(h));
    var p := s.beats[h];
    if p.todo != [] {
      var d := p.todo[0];
      assert d in p.todo;
      EnqueueMoves(cfg, p, s.boxes[d], s.taken[d]);
      forall c | 0 <= c < cfg.clients ensures ClientOk(cfg, r, c) {
        BoxKeeps(cfg, s, r, d, Beat, c);
      }
      forall m | 0 <= m < cfg.lanes ensures LaneOk(cfg, r, m) {
        assert LaneOk(cfg, s, m) && Pending(cfg, r, m) == Pending(cfg, s, m);
      }
    } else {
      OtherKeeps(cfg, s, r);
    }
  }

  lemma NextKeeps(cfg: Config, s: State, step: Step)
    requires ValidConfig(cfg) && Inv(cfg, s)
    ensures Inv(cfg, Next(cfg, s, step))
  {
    match step {
      case Consume(dispatch) => ConsumeKeeps(cfg, s, dispatch);
      case Receive(l) => ReceiveKeeps(cfg, s, l);
      case Broadcast(l, recipients) => BroadcastKeeps(cfg, s, l, recipients);
      case WorkerEnqueue(l) =>
        if l < cfg.lanes && Sending(s.workers[l], cfg.clients) {
          if s.workers[l].todo == [] { FanoutEnds(cfg, s, l); } else { WorkerEnqueueKeeps(cfg, s, l); }
        }
      case BeatEnqueue(h) => if h in s.beats && Sending(s.beats[h], cfg.clients) { BeatEnqueueKeeps(cfg, s, h); }
      case Take(c) =>
        if c < cfg.clients && s.boxes[c].send != [] {
          assert s.boxes[c].send == [s.boxes[c].send[0]] + s.boxes[c].send[1..];
        }
        OtherKeeps(cfg, s, Next(cfg, s, step));
      case StartBeat(_, _) => OtherKeeps(cfg, s, Next(cfg, s, step));
      case Close(_) => OtherKeeps(cfg, s, Next(cfg, s, step));
    }
  }

  lemma {:induction false} RunInv(cfg: Config, steps: seq<Step>)
    requires ValidConfig(cfg)
    ensures Inv(cfg, Run(cfg, steps))
  {
    if steps == [] {
    } else {
      RunInv(cfg, steps[..|steps| - 1]);
      NextKeeps(cfg, Run(cfg, steps[..|steps| - 1]), steps[|steps| - 1]);
    }
  }

  // ---- The main result ----

  /** The events of a key, in order. */
  ghost function OfKey(events: seq<Event>, key: string): seq<Event> {
    if events == [] then []
    else
      var last := events[|events| - 1];
      OfKey(events[..|events| - 1], key) + if last.key == key then [last] else []
  }

  /** The events of a key from which the items are built, in order. */
  ghost function EventsOfKey(cfg: Config, items: seq<Item>, key: string): seq<Event> {
    if items == [] then []
    else
      var last := items[|items| - 1];
      EventsOfKey(cfg, items[..|items| - 1], key) +
      if last.Data? && last.i < |cfg.bus| && cfg.bus[last.i].key == key then [cfg.bus[last.i]] else []
  }

  /** `a` is `b` with some elements left out. */
  ghost predicate Subsequence<T(!new)>(a: seq<T>, b: seq<T>)
    decreases |b|
  {
    || a == []
    || (b != [] && Subsequence(a, b[..|b| - 1]))
    || (a != [] && b != [] && a[|a| - 1] == b[|b| - 1] && Subsequence(a[..|a| - 1], b[..|b| - 1]))
  }

  /** The item is built from an event of the key. */
  ghost predicate Keyed(cfg: Config, item: Item, key: string) {
    item.Data? && item.i < |cfg.bus| && cfg.bus[item.i].key == key
  }

  lemma SubsequenceBoth<T(!new)>(a: seq<T>, b: seq<T>, x: T)
    requires Subsequence(a, b)
    ensures Subsequence(a + [x], b + [x])
  {
  }

  lemma SubsequenceMore<T(!new)>(a: seq<T>, b: seq<T>, x: T)
    requires Subsequence(a, b)
    ensures Subsequence(a, b + [x])
  {
  }

  lemma OfKeyStep(events: seq<Event>, n: nat, key: string)
    requires 0 < n <= |events|
    ensures var before := OfKey(events[..n - 1], key);
      OfKey(events[..n], key) == if events[n - 1].key == key then before + [events[n - 1]] else before
  {
    assert events[..n][..n - 1] == events[..n - 1];
  }

  lemma EventsOfKeyStep(cfg: Config, items: seq<Item>, key: string)
    requires items != []
    ensures var before, last := EventsOfKey(cfg, items[..|items| - 1], key), items[|items| - 1];
      EventsOfKey(cfg, items, key) == if Keyed(cfg, last, key) then before + [cfg.bus[last.i]] else before
  {
  }

  /** The items of the key are from different events before `n`, in bus order. */
  ghost predicate InOrder(cfg: Config, items: seq<Item>, n: nat, key: string) {
    && (forall a :: 0 <= a < |items| && Keyed(cfg, items[a], key) ==> items[a].i < n)
    && (forall a, b :: 0 <= a < b < |items| && Keyed(cfg, items[a], key) && Keyed(cfg, items[b], key) ==> items[a].i < items[b].i)
  }

  lemma InOrderInit(cfg: Config, items: seq<Item>, n: nat, key: string)
    requires InOrder(cfg, items, n, key) && items != []
    ensures var init, last := items[..|items| - 1], items[|items| - 1];
      && InOrder(cfg, init, n, key)
      && (Keyed(cfg, last, key) ==> InOrder(cfg, init, last.i, key) && (last.i < n - 1 ==> InOrder(cfg, items, n - 1, key)))
  {
  }

  lemma {:induction false} OrderedIsSubsequence(cfg: Config, items: seq<Item>, n: nat, key: string)
    requires n <= |cfg.bus| && InOrder(cfg, items, n, key)
    ensures Subsequence(EventsOfKey(cfg, items, key), OfKey(cfg.bus[..n], key))
    decreases n, |items|
  {
    if items == [] {
    } else {
      var init, last := items[..|items| - 1], items[|items| - 1];
      InOrderInit(cfg, items, n, key);
      EventsOfKeyStep(cfg, items, key);
      if !Keyed(cfg, last, key) {
        OrderedIsSubsequence(cfg, init, n, key);
      } else {
        OfKeyStep(cfg.bus, n, key);
        if last.i == n - 1 {
          OrderedIsSubsequence(cfg, init, n - 1, key);
          SubsequenceBoth(EventsOfKey(cfg, init, key), OfKey(cfg.bus[..n - 1], key), cfg.bus[n - 1]);
        } else {
          OrderedIsSubsequence(cfg, items, n - 1, key);
          SubsequenceMore(EventsOfKey(cfg, items, key), OfKey(cfg.bus[..n - 1], key), cfg.bus[n - 1]);
        }
      }
    }
  }

  /** In every run, for every client and every key: the frames of the key that the writer
      takes are in strict bus order, and the events they are built from are a subsequence of
      the key's events in bus order, for any number of lanes, any policy and any other
      producer. */
  lemma PerKeyOrder(cfg: Config, steps: seq<Step>, c: nat, key: string)
    requires ValidConfig(cfg) && c < cfg.clients
    ensures var s := Run(cfg, steps);
      && (forall a, b :: 0 <= a < b < |s.taken[c]| && Keyed(cfg, s.taken[c][a], key) && Keyed(cfg, s.taken[c][b], key)
            ==> s.taken[c][a].i < s.taken[c][b].i)
      && Subsequence(EventsOfKey(cfg, s.taken[c], key), OfKey(cfg.bus[..s.next], key))
  {
    RunInv(cfg, steps);
    var s := Run(cfg, steps);
    assert ClientOk(cfg, s, c);
    var items, lane := s.taken[c], ShardIndex(cfg.hash, key, cfg.lanes);
    assert forall a :: 0 <= a < |items| ==> items[a] == Reached(s, c)[a];
    assert forall a :: 0 <= a < |items| && Keyed(cfg, items[a], key) ==> OfLane(cfg, items[a], lane);
    OrderedIsSubsequence(cfg, items, s.next, key);
  }
}
