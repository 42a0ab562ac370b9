/** The hub under concurrency.  Register, Unregister and InvalidateUser run as interleaved
    operations; one step is one lock-protected section or one atomic instruction:
    the quota Acquire and Release, one shard Register, Unregister or InvalidateUser, the
    compare-and-swap on the `unregistered` flag, and Close.  A run is any sequence of
    steps; a step that is not enabled leaves the state as it is. */
module HubProtocol {
  import opened Sequences
  import opened Hashing
  import opened Quota
  import opened Shards

  type OpId = nat

  datatype Config = Config(limits: Limits, count: nat, hash: HashFunction)

  ghost predicate ValidConfig(cfg: Config) {
    0 < cfg.count < TWO_TO_THE_32
  }

  /** An operation in progress: the section it is about to run, with its local variables. */
  datatype Op =
    | RegCheck(c: Profile)
    | RegAcquire(c: Profile)
    | RegInsert(c: Profile, i: nat)
    | RegDone(c: Profile, ok: bool)
    | UnregMark(c: Profile)
    | UnregClose(c: Profile)
    | UnregRemove(c: Profile, i: nat)
    | UnregRelease(c: Profile)
    | UnregDone(c: Profile)
    | InvSweep(tenant: string, user: string, i: nat, closedCount: nat)
    | InvMark(tenant: string, user: string, i: nat, matched: seq<Profile>, closedCount: nat)
    | InvClose(tenant: string, user: string, i: nat, matched: seq<Profile>, closedCount: nat)
    | InvRelease(tenant: string, user: string, i: nat, matched: seq<Profile>, closedCount: nat)
    | InvDone(tenant: string, user: string, closedCount: nat)

  /** The shared state, then history that no step reads: which operation registered a
      client, which clients got their quota, whose Register returned, how often each was
      released, which operation last swept a client out of a shard, which clients had an
      InvalidateUser of their user running at some time during their Register, which entries
      were inserted too late for an invalidation to find them, and whose Register had returned
      when an InvalidateUser of their user started.
      `owner` is the `unregistered` flag together with the winner of its swap. */
  datatype State = State(
    hubClosed: bool,
    quota: Counters,
    shards: seq<Shard<Profile>>,
    closed: set<Profile>,
    owner: map<Profile, OpId>,
    ops: map<OpId, Op>,
    regOp: map<Profile, OpId>,
    acquired: set<Profile>,
    registered: set<Profile>,
    releases: multiset<Profile>,
    sweptBy: map<Profile, OpId>,
    overlapped: set<Profile>,
    late: set<(Profile, string)>,
    targets: map<OpId, set<Profile>>)

  /** The effect of one atomic section on the shared state. */
  datatype Action =
    | Skip
    | Take(c: Profile)                            // quota Acquire, admitted
    | Put(c: Profile, key: string)                // shard Register
    | Return(c: Profile)                          // Register returns nil
    | Mark(c: Profile)                            // compare-and-swap, won
    | Shut(c: Profile)                            // client Close
    | Drop(c: Profile, key: string)               // shard Unregister
    | Give(c: Profile)                            // quota Release
    | Purge(i: nat, tenant: string, user: string) // shard InvalidateUser

  /** `order` is the order in which a shard InvalidateUser ranges over its client table. */
  datatype Step =
    | StartRegister(o: OpId, c: Profile)
    | StartUnregister(o: OpId, c: Profile)
    | StartInvalidate(o: OpId, tenant: string, user: string)
    | Advance(o: OpId, order: seq<Profile>)
    | CloseHub
    | CloseClient(c: Profile)

  function Init(cfg: Config): State {
    State(false, ZERO, seq(cfg.count, i => Empty()), {}, map[], map[], map[], {}, {}, multiset{}, map[], {}, {}, map[])
  }

  function ShardOf(cfg: Config, key: string): nat
    requires ValidConfig(cfg)
    ensures ShardOf(cfg, key) < cfg.count
  {
    ShardIndex(cfg.hash, key, cfg.count)
  }

  predicate Registering(op: Op) {
    op.RegCheck? || op.RegAcquire? || op.RegInsert?
  }

  predicate Invalidating(op: Op) {
    op.InvSweep? || op.InvMark? || op.InvClose? || op.InvRelease?
  }

  predicate Finished(op: Op) {
    op.RegDone? || op.UnregDone? || op.InvDone?
  }

  /** The operation is an InvalidateUser of the client's user. */
  predicate ForUser(op: Op, c: Profile) {
    (Invalidating(op) || op.InvDone?) && op.tenant == c.tenant && op.user == c.user
  }

  /** The invalidation has already swept shard `i`. */
  predicate Swept(op: Op, i: nat) {
    (op.InvSweep? && i < op.i) || ((op.InvMark? || op.InvClose? || op.InvRelease?) && i <= op.i)
  }

  /** An entry of the client that is inserted into shard `i` now comes too late: the client is
      already marked, or a running invalidation of its user has already swept the shard. */
  predicate TooLate(s: State, c: Profile, i: nat) {
    c in s.owner || exists p :: p in s.ops && Invalidating(s.ops[p]) && ForUser(s.ops[p], c) && Swept(s.ops[p], i)
  }

  function Matched(sh: Shard<Profile>, tenant: string, user: string): set<Profile> {
    set id | id in sh.clients && sh.clients[id].tenant == tenant && sh.clients[id].user == user :: sh.clients[id]
  }

  function MatchedIds(sh: Shard<Profile>, tenant: string, user: string): set<string> {
    set id | id in sh.clients && sh.clients[id].tenant == tenant && sh.clients[id].user == user
  }

  /** The order is one in which the swept shard can be ranged over. */
  predicate OrderFor(s: State, op: Op, order: seq<Profile>) {
    op.InvSweep? && op.i < |s.shards| ==>
      && Distinct(order)
      && (forall c :: c in order ==> c in Matched(s.shards[op.i], op.tenant, op.user))
      && (forall c :: c in Matched(s.shards[op.i], op.tenant, op.user) ==> c in order)
  }

  /** Register: the section it runs and where it goes next. */
  function RegisterProgram(cfg: Config, s: State, op: Op): (Op, Action)
    requires Registering(op)
  {
    match op
    case RegCheck(c) =>
      if s.hubClosed || (cfg.limits.maxTopics > 0 && |c.topics| > cfg.limits.maxTopics)
      then (RegDone(c, false), Skip) else (RegAcquire(c), Skip)
    case RegAcquire(c) =>
      if Check(s.quota, cfg.limits, c.tenant, c.user).Some?
      then (RegDone(c, false), Skip) else (RegInsert(c, 0), Take(c))
    case RegInsert(c, i) =>
      if i < |c.topics| then (RegInsert(c, i + 1), Put(c, c.topics[i])) else (RegDone(c, true), Return(c))
  }

  /** Unregister, and nothing for an operation that has finished. */
  function UnregisterProgram(s: State, op: Op): (Op, Action)
    requires !Registering(op) && !Invalidating(op)
  {
    match op
    case UnregMark(c) => if c in s.owner then (UnregDone(c), Skip) else (UnregClose(c), Mark(c))
    case UnregClose(c) => (UnregRemove(c, 0), Shut(c))
    case UnregRemove(c, i) =>
      if i < |c.topics| then (UnregRemove(c, i + 1), Drop(c, c.topics[i])) else (UnregRelease(c), Skip)
    case UnregRelease(c) => (UnregDone(c), Give(c))
    case _ => (op, Skip)
  }

  /** InvalidateUser. */
  function InvalidateProgram(s: State, op: Op, order: seq<Profile>): (Op, Action)
    requires Invalidating(op)
  {
    match op
    case InvSweep(t, u, i, n) =>
      if i < |s.shards| then (InvMark(t, u, i, order, n), Purge(i, t, u)) else (InvDone(t, u, n), Skip)
    case InvMark(t, u, i, m, n) =>
      if m == [] then (InvSweep(t, u, i + 1, n), Skip)
      else if m[0] in s.owner then (InvMark(t, u, i, m[1..], n), Skip)
      else (InvClose(t, u, i, m, n), Mark(m[0]))
    case InvClose(t, u, i, m, n) =>
      if m == [] then (op, Skip) else (InvRelease(t, u, i, m, n), Shut(m[0]))
    case InvRelease(t, u, i, m, n) =>
      if m == [] then (op, Skip) else (InvMark(t, u, i, m[1..], n + 1), Give(m[0]))
  }

  function Program(cfg: Config, s: State, op: Op, order: seq<Profile>): (Op, Action) {
    if Registering(op) then RegisterProgram(cfg, s, op)
    else if Invalidating(op) then InvalidateProgram(s, op, order)
    else UnregisterProgram(s, op)
  }

  /** The shared state after one shard Register. */
  function Inserted(cfg: Config, s: State, c: Profile, key: string): (r: State)
    requires ValidConfig(cfg) && |s.shards| == cfg.count
    ensures |r.shards| == |s.shards| && r.ops == s.ops && r.regOp == s.regOp && r.overlapped == s.overlapped && r.hubClosed == s.hubClosed
  {
    var i := ShardOf(cfg, key);
    s.(shards := s.shards[i := Insert(s.shards[i], key, c.id, c)],
       late := if TooLate(s, c, i) then s.late + {(c, key)} else s.late)
  }

  /** The shared state after one shard Unregister. */
  function Removed(cfg: Config, s: State, c: Profile, key: string): (r: State)
    requires ValidConfig(cfg) && |s.shards| == cfg.count
    ensures |r.shards| == |s.shards| && r.ops == s.ops && r.regOp == s.regOp && r.overlapped == s.overlapped && r.hubClosed == s.hubClosed
  {
    var i := ShardOf(cfg, key);
    s.(shards := s.shards[i := Remove(s.shards[i], key, c.id)], late := s.late - {(c, key)})
  }

  /** The shared state after operation `o` swept shard `i`. */
  function Purged(cfg: Config, s: State, o: OpId, i: nat, tenant: string, user: string): (r: State)
    requires ValidConfig(cfg) && i < |s.shards|
    ensures |r.shards| == |s.shards| && r.ops == s.ops && r.regOp == s.regOp && r.overlapped == s.overlapped && r.hubClosed == s.hubClosed
  {
    var matched := Matched(s.shards[i], tenant, user);
    s.(shards := s.shards[i := RemoveAll(s.shards[i], MatchedIds(s.shards[i], tenant, user))],
       sweptBy := map c | c in s.sweptBy.Keys + matched :: if c in matched then o else s.sweptBy[c],
       late := set e | e in s.late && !(e.0.tenant == tenant && e.0.user == user && ShardOf(cfg, e.1) == i))
  }

  /** The shared state after `a`, run by operation `o`. */
  function Perform(cfg: Config, s: State, o: OpId, a: Action): (r: State)
    requires ValidConfig(cfg) && |s.shards| == cfg.count
    ensures |r.shards| == cfg.count
    ensures r.ops == s.ops && r.regOp == s.regOp && r.overlapped == s.overlapped && r.hubClosed == s.hubClosed
  {
    match a
    case Skip => s
    case Take(c) => s.(quota := Acquired(s.quota, c.tenant, c.user), acquired := s.acquired + {c})
    case Put(c, key) => Inserted(cfg, s, c, key)
    case Return(c) => s.(registered := s.registered + {c})
    case Mark(c) => s.(owner := s.owner[c := o])
    case Shut(c) => s.(closed := s.closed + {c})
    case Drop(c, key) => Removed(cfg, s, c, key)
    case Give(c) => s.(quota := Released(s.quota, c.tenant, c.user), releases := s.releases + multiset{c})
    case Purge(i, t, u) => if i < |s.shards| then Purged(cfg, s, o, i, t, u) else s
  }

  predicate Enabled(s: State, step: Step)
  {
    match step
    case StartRegister(o, c) => o !in s.ops && forall d :: d in s.regOp ==> d.id != c.id
    case StartUnregister(o, c) => o !in s.ops && c in s.registered
    case StartInvalidate(o, t, u) => o !in s.ops
    case Advance(o, order) => o in s.ops && OrderFor(s, s.ops[o], order)
    case CloseHub => true
    case CloseClient(c) => c in s.regOp
  }

  function Apply(cfg: Config, s: State, step: Step): (r: State)
    requires ValidConfig(cfg) && |s.shards| == cfg.count
    requires Enabled(s, step)
    ensures |r.shards| == cfg.count
  {
    match step
    case StartRegister(o, c) =>
      s.(ops := s.ops[o := RegCheck(c)],
         regOp := s.regOp[c := o],
         overlapped := if exists p :: p in s.ops && Invalidating(s.ops[p]) && ForUser(s.ops[p], c)
                       then s.overlapped + {c} else s.overlapped)
    case StartUnregister(o, c) => s.(ops := s.ops[o := UnregMark(c)])
    case StartInvalidate(o, t, u) =>
      s.(ops := s.ops[o := InvSweep(t, u, 0, 0)],
         targets := s.targets[o := set c | c in s.registered && c.tenant == t && c.user == u],
         overlapped := s.overlapped + set c | c in s.regOp && c.tenant == t && c.user == u
                                              && s.regOp[c] in s.ops && Registering(s.ops[s.regOp[c]]))
    case Advance(o, order) =>
      var (op, a) := Program(cfg, s, s.ops[o], order);
      Perform(cfg, s.(ops := s.ops[o := op]), o, a)
    case CloseHub => s.(hubClosed := true)
    case CloseClient(c) => s.(closed := s.closed + {c})
  }

  function Next(cfg: Config, s: State, step: Step): (r: State)
    requires ValidConfig(cfg) && |s.shards| == cfg.count
    ensures |r.shards| == cfg.count
  {
    if Enabled(s, step) then Apply(cfg, s, step) else s
  }

  /** The state after a run. */
  function Run(cfg: Config, steps: seq<Step>): (r: State)
    requires ValidConfig(cfg)
    ensures |r.shards| == cfg.count
  {
    if steps == [] then Init(cfg)
    else Next(cfg, Run(cfg, steps[..|steps| - 1]), steps[|steps| - 1])
  }
}
