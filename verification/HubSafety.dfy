/** Safety of the concurrent hub over whole runs. */
module HubSafety {
  import opened Options
  import opened Quota
  import opened Shards
  import opened HubProtocol
  import opened HubInvariant

  ghost predicate Mentions(op: Op, c: Profile) {
    RegisterOf(op, c) || UnregisterOf(op, c) || ((op.InvMark? || op.InvClose? || op.InvRelease?) && c in op.matched)
  }

  /** Ids are unique, and the tables refer to clients and operations that exist. */
  ghost predicate Tables(s: State) {
    && (forall c, d :: c in s.regOp && d in s.regOp && c.id == d.id ==> c == d)
    && s.acquired <= s.regOp.Keys && s.registered <= s.regOp.Keys
    && s.owner.Keys <= s.regOp.Keys && s.sweptBy.Keys <= s.acquired
    && (forall c :: c in s.releases ==> c in s.regOp)
    && (forall c :: c in s.regOp ==> s.regOp[c] in s.ops)
    && (forall c :: c in s.owner ==> s.owner[c] in s.ops)
    && (forall c :: c in s.sweptBy ==> s.sweptBy[c] in s.ops)
  }

  /** And so do the operations. */
  ghost predicate Mentioned(s: State) {
    forall p, c :: p in s.ops && Mentions(s.ops[p], c) ==> c in s.regOp
  }

  ghost predicate Known(s: State) {
    Tables(s) && Mentioned(s)
  }

  ghost predicate Shaped(cfg: Config, s: State)
    requires ValidConfig(cfg)
  {
    && |s.shards| == cfg.count
    && forall i :: 0 <= i < |s.shards| ==> ShardShape(cfg, s.acquired, i, s.shards[i])
  }

  ghost predicate Viewed(cfg: Config, s: State)
    requires ValidConfig(cfg) && |s.shards| == cfg.count
  {
    && (forall c {:trigger ViewOf(cfg, s, c)} :: c in s.regOp ==> Alone(cfg, ViewOf(cfg, s, c), c))
    && (forall c, p {:trigger ViewOf(cfg, s, c), s.ops[p]} :: c in s.regOp && p in s.ops ==> With(cfg, ViewOf(cfg, s, c), c, p, s.ops[p]))
    && (forall p :: p in s.ops ==> OpShape(cfg.count, s.ops[p]))
  }

  /** The clients acquired and not yet released. */
  ghost function Held(s: State): set<Profile> {
    set c | c in s.acquired && c !in s.releases
  }

  ghost predicate QuotaExact(cfg: Config, s: State) {
    Counts(s.quota, Held(s)) && WithinLimits(cfg.limits, Held(s))
  }

  /** The clients whose swap operation `o` won. */
  ghost function Won(s: State, o: OpId): set<Profile> {
    set c | c in s.owner && s.owner[c] == o
  }

  predicate Counting(op: Op) {
    Invalidating(op) || op.InvDone?
  }

  /** The wins of an invalidation: those counted, and the one in hand. */
  ghost function Tally(op: Op): int
    requires Counting(op)
  {
    op.closedCount + if op.InvClose? || op.InvRelease? then 1 else 0
  }

  ghost predicate WinsOk(s: State, o: OpId, op: Op) {
    Counting(op) ==> Tally(op) == |Won(s, o)|
  }

  ghost predicate WinsCounted(s: State) {
    forall o :: o in s.ops ==> WinsOk(s, o, s.ops[o])
  }

  ghost predicate Core(cfg: Config, s: State)
    requires ValidConfig(cfg)
  {
    Known(s) && Shaped(cfg, s) && Viewed(cfg, s)
  }

  ghost predicate Inv(cfg: Config, s: State)
    requires ValidConfig(cfg)
  {
    Core(cfg, s) && QuotaExact(cfg, s) && WinsCounted(s)
  }

  // ---- A section of a running operation ----

  /** The state after operation `o` went to `op'` by performing `a`. */
  ghost function Done(cfg: Config, s: State, o: OpId, op': Op, a: Action): (r: State)
    requires ValidConfig(cfg) && |s.shards| == cfg.count
    ensures r.ops == s.ops[o := op'] && r.regOp == s.regOp && |r.shards| == cfg.count
  {
    Perform(cfg, s.(ops := s.ops[o := op']), o, a)
  }

  ghost predicate Subject(a: Action, c: Profile) {
    (a.Take? || a.Put? || a.Return? || a.Mark? || a.Shut? || a.Drop? || a.Give?) && a.c == c
  }

  lemma MoveView(cfg: Config, s: State, o: OpId, op': Op, c: Profile)
    requires ValidConfig(cfg) && |s.shards| == cfg.count && c in s.regOp
    ensures ViewOf(cfg, s.(ops := s.ops[o := op']), c) == Move(ViewOf(cfg, s, c), o, op')
  {
  }

  /** A section that is not about the index and is about another client. */
  lemma FlagOther(cfg: Config, s: State, o: OpId, a: Action, c: Profile)
    requires ValidConfig(cfg) && |s.shards| == cfg.count && c in s.regOp
    requires !a.Put? && !a.Drop? && !a.Purge? && !Subject(a, c)
    ensures ViewOf(cfg, Perform(cfg, s, o, a), c) == ViewOf(cfg, s, c)
  {
  }

  lemma FlagView(cfg: Config, s: State, o: OpId, a: Action, c: Profile)
    requires ValidConfig(cfg) && |s.shards| == cfg.count && c in s.regOp && o in s.ops
    requires !a.Put? && !a.Drop? && !a.Purge?
    ensures ViewOf(cfg, Perform(cfg, s, o, a), c) == Act(cfg, ViewOf(cfg, s, c), c, o, s.ops[o], a)
  {
    if !Subject(a, c) {
      FlagOther(cfg, s, o, a, c);
    } else if a.Mark? {
      assert Perform(cfg, s, o, a) == s.(owner := s.owner[c := o]);
    }
  }

  lemma PutView(cfg: Config, s: State, o: OpId, d: Profile, key: string, c: Profile)
    requires ValidConfig(cfg) && |s.shards| == cfg.count && c in s.regOp && o in s.ops
    requires (d.id == c.id ==> d == c) && key in d.topics
    ensures ViewOf(cfg, Inserted(cfg, s, d, key), c) == Act(cfg, ViewOf(cfg, s, c), c, o, s.ops[o], Put(d, key))
  {
    PutViews(cfg, s.shards, d, key, c);
  }

  lemma DropView(cfg: Config, s: State, o: OpId, d: Profile, key: string, c: Profile)
    requires ValidConfig(cfg) && |s.shards| == cfg.count && c in s.regOp && o in s.ops && (d.id == c.id ==> d == c)
    ensures ViewOf(cfg, Removed(cfg, s, d, key), c) == Act(cfg, ViewOf(cfg, s, c), c, o, s.ops[o], Drop(d, key))
  {
    DropViews(cfg, s.shards, d, key, c);
  }

  lemma PurgeView(cfg: Config, s: State, o: OpId, a: Action, c: Profile)
    requires ValidConfig(cfg) && |s.shards| == cfg.count && c in s.regOp && o in s.ops
    requires a.Purge? && a.i < |s.shards| && ShardShape(cfg, s.acquired, a.i, s.shards[a.i])
    requires forall d :: d in s.acquired && d.id == c.id ==> d == c
    ensures ViewOf(cfg, Perform(cfg, s, o, a), c) == Act(cfg, ViewOf(cfg, s, c), c, o, s.ops[o], a)
  {
    PurgeViews(cfg, s.acquired, s.shards, a.i, a.tenant, a.user, c);
  }

  lemma ViewStep(cfg: Config, s: State, o: OpId, op': Op, a: Action, c: Profile)
    requires ValidConfig(cfg) && |s.shards| == cfg.count && c in s.regOp && o in s.ops && s.acquired <= s.regOp.Keys
    requires (forall d :: d in s.regOp && d.id == c.id ==> d == c) && (forall d :: Subject(a, d) ==> d in s.regOp)
    requires a.Put? ==> a.key in a.c.topics
    requires a.Purge? ==> a.i < |s.shards| && ShardShape(cfg, s.acquired, a.i, s.shards[a.i])
    ensures ViewOf(cfg, Done(cfg, s, o, op', a), c) == After(cfg, ViewOf(cfg, s, c), c, o, op', a)
  {
    MoveView(cfg, s, o, op', c);
    var s1 := s.(ops := s.ops[o := op']);
    if a.Put? {
      assert Subject(a, a.c);
      PutView(cfg, s1, o, a.c, a.key, c);
    } else if a.Drop? {
      assert Subject(a, a.c);
      DropView(cfg, s1, o, a.c, a.key, c);
    } else if a.Purge? {
      PurgeView(cfg, s1, o, a, c);
    } else {
      FlagView(cfg, s1, o, a, c);
    }
  }

  /** What a step of the running operation does to one client. */
  lemma RegisterStep(cfg: Config, s: State, o: OpId, c: Profile)
    requires ValidConfig(cfg) && Core(cfg, s) && c in s.regOp && o in s.ops && Registering(s.ops[o])
    ensures var (op', a) := RegisterProgram(cfg, s, s.ops[o]); Kept(cfg, ViewOf(cfg, s, c), c, o, op', a)
  {
    var op := s.ops[o];
    var v := ViewOf(cfg, s, c);
    var (op', a) := RegisterProgram(cfg, s, op);
    assert Before(cfg, v, c, o, op) && RegisterFlows(op, op', a);
    if op.c != c {
      RegisterStrangerKeeps(cfg, v, c, o, op, op', a);
    } else {
      match op {
        case RegCheck(_) => RegCheckKeeps(cfg, v, c, o, op, op', a);
        case RegAcquire(_) => RegAcquireKeeps(cfg, v, c, o, op, op', a);
        case RegInsert(_, _) => RegInsertKeeps(cfg, v, c, o, op, op', a);
      }
    }
  }

  lemma UnregisterStep(cfg: Config, s: State, o: OpId, c: Profile)
    requires ValidConfig(cfg) && Core(cfg, s) && c in s.regOp && o in s.ops
    requires !Registering(s.ops[o]) && !Invalidating(s.ops[o]) && !Finished(s.ops[o])
    ensures var (op', a) := UnregisterProgram(s, s.ops[o]); Kept(cfg, ViewOf(cfg, s, c), c, o, op', a)
  {
    var op := s.ops[o];
    var v := ViewOf(cfg, s, c);
    var (op', a) := UnregisterProgram(s, op);
    assert Before(cfg, v, c, o, op) && UnregisterFlows(v, c, op, op', a);
    if op.c != c {
      UnregisterStrangerKeeps(cfg, v, c, o, op, op', a);
    } else {
      match op {
        case UnregMark(_) => UnregMarkKeeps(cfg, v, c, o, op, op', a);
        case UnregClose(_) => UnregCloseKeeps(cfg, v, c, o, op, op', a);
        case UnregRemove(_, _) => UnregRemoveKeeps(cfg, v, c, o, op, op', a);
        case UnregRelease(_) => UnregReleaseKeeps(cfg, v, c, o, op, op', a);
      }
    }
  }

  lemma InvalidateStep(cfg: Config, s: State, o: OpId, order: seq<Profile>, c: Profile)
    requires ValidConfig(cfg) && Core(cfg, s) && c in s.regOp && o in s.ops && Invalidating(s.ops[o])
    requires OrderFor(s, s.ops[o], order)
    ensures var (op', a) := InvalidateProgram(s, s.ops[o], order); Kept(cfg, ViewOf(cfg, s, c), c, o, op', a)
  {
    var op := s.ops[o];
    var v := ViewOf(cfg, s, c);
    var (op', a) := InvalidateProgram(s, op, order);
    assert Before(cfg, v, c, o, op);
    if op.InvSweep? {
      if op.i == cfg.count {
        InvEndKeeps(cfg, v, c, o, op, op');
      } else {
        PurgeViews(cfg, s.acquired, s.shards, op.i, op.tenant, op.user, c);
        if c in order {
          PurgeKeeps(cfg, v, c, o, op, op');
        } else {
          PurgeOtherKeeps(cfg, v, c, o, op, op');
        }
      }
    } else {
      assert InvalidateFlows(cfg.count, v, c, op, op', a);
      if op.matched == [] || op.matched[0] != c {
        InvStrangerKeeps(cfg, v, c, o, op, op', a);
      } else {
        match op {
          case InvMark(_, _, _, _, _) => InvMarkKeeps(cfg, v, c, o, op, op', a);
          case InvClose(_, _, _, _, _) => InvCloseKeeps(cfg, v, c, o, op, op', a);
          case InvRelease(_, _, _, _, _) => InvReleaseKeeps(cfg, v, c, o, op, op', a);
        }
      }
    }
  }

  /** One section of an operation, as client `c` sees it. */
  ghost predicate Flows(count: nat, v: View, c: Profile, op: Op, op': Op, a: Action) {
    if Registering(op) then RegisterFlows(op, op', a)
    else if Invalidating(op) then InvalidateFlows(count, v, c, op, op', a)
    else UnregisterFlows(v, c, op, op', a)
  }

  lemma InvalidateProgramFlows(cfg: Config, s: State, o: OpId, order: seq<Profile>, c: Profile)
    requires ValidConfig(cfg) && Core(cfg, s) && c in s.regOp && o in s.ops && Invalidating(s.ops[o])
    requires OrderFor(s, s.ops[o], order)
    ensures var (op', a) := InvalidateProgram(s, s.ops[o], order);
      InvalidateFlows(cfg.count, ViewOf(cfg, s, c), c, s.ops[o], op', a)
  {
    var op, v := s.ops[o], ViewOf(cfg, s, c);
    assert With(cfg, v, c, o, op);
    if op.InvSweep? && op.i < cfg.count {
      PurgeViews(cfg, s.acquired, s.shards, op.i, op.tenant, op.user, c);
    }
  }

  lemma ProgramFlows(cfg: Config, s: State, o: OpId, order: seq<Profile>, c: Profile)
    requires ValidConfig(cfg) && Core(cfg, s) && Enabled(s, Advance(o, order)) && !Finished(s.ops[o]) && c in s.regOp
    ensures var (op', a) := Program(cfg, s, s.ops[o], order);
      Before(cfg, ViewOf(cfg, s, c), c, o, s.ops[o]) && Flows(cfg.count, ViewOf(cfg, s, c), c, s.ops[o], op', a)
  {
    assert Before(cfg, ViewOf(cfg, s, c), c, o, s.ops[o]);
    if Invalidating(s.ops[o]) {
      InvalidateProgramFlows(cfg, s, o, order, c);
    }
  }

  /** What the invariant says of an action about to be performed. */
  ghost predicate Legit(cfg: Config, s: State, op': Op, a: Action) {
    && (forall c :: Subject(a, c) || Mentions(op', c) ==> c in s.regOp)
    && (a.Take? ==> a.c !in s.acquired && a.c !in s.releases && Check(s.quota, cfg.limits, a.c.tenant, a.c.user).None?)
    && (a.Put? ==> a.c in s.acquired && a.key in a.c.topics)
    && (a.Mark? ==> a.c !in s.owner)
    && (a.Give? ==> a.c in Held(s))
    && (a.Purge? ==> a.i < |s.shards|)
  }

  lemma MatchedKnown(cfg: Config, s: State, i: nat, t: string, u: string, c: Profile)
    requires ValidConfig(cfg) && Shaped(cfg, s) && i < |s.shards| && c in Matched(s.shards[i], t, u)
    ensures c in s.acquired
  {
    var id :| id in s.shards[i].clients && s.shards[i].clients[id] == c;
    assert Listing(s.shards[i], id) == Some(c);
  }

  lemma SubjectFacts(cfg: Config, s: State, o: OpId, c: Profile)
    requires ValidConfig(cfg) && Known(s) && |s.shards| == cfg.count && Viewed(cfg, s)
    requires c in s.regOp && o in s.ops
    ensures s.ops[o].RegAcquire? && s.ops[o].c == c ==> c !in s.acquired && c !in s.releases
    ensures s.ops[o].RegInsert? && s.ops[o].c == c ==> c in s.acquired
    ensures Owning(s.ops[o], c) ==> c in Held(s)
  {
    var v := ViewOf(cfg, s, c);
    assert Alone(cfg, v, c) && With(cfg, v, c, o, s.ops[o]);
  }

  lemma LegitCall(cfg: Config, s: State, op: Op, order: seq<Profile>)
    requires !Counting(op) && op.c in s.regOp && (Owning(op, op.c) ==> op.c in Held(s))
    requires op.RegAcquire? ==> op.c !in s.acquired && op.c !in s.releases
    requires op.RegInsert? ==> op.c in s.acquired
    ensures var (op', a) := Program(cfg, s, op, order); Legit(cfg, s, op', a)
  {
  }

  lemma LegitSweep(cfg: Config, s: State, op: Op, order: seq<Profile>)
    requires ValidConfig(cfg) && Known(s) && Shaped(cfg, s) && op.InvSweep? && OrderFor(s, op, order)
    ensures var (op', a) := InvalidateProgram(s, op, order); Legit(cfg, s, op', a)
  {
    if op.i < |s.shards| {
      forall c | c in order ensures c in s.regOp { MatchedKnown(cfg, s, op.i, op.tenant, op.user, c); }
    }
  }

  lemma LegitMark(cfg: Config, s: State, op: Op, order: seq<Profile>)
    requires op.InvMark? || op.InvClose? || op.InvRelease?
    requires forall c :: c in op.matched ==> c in s.regOp && (Owning(op, c) ==> c in Held(s))
    ensures var (op', a) := InvalidateProgram(s, op, order); Legit(cfg, s, op', a)
  {
  }

  lemma LegitStep(cfg: Config, s: State, o: OpId, order: seq<Profile>)
    requires ValidConfig(cfg) && Core(cfg, s) && o in s.ops && !Finished(s.ops[o]) && OrderFor(s, s.ops[o], order)
    ensures var (op', a) := Program(cfg, s, s.ops[o], order); Legit(cfg, s, op', a)
  {
    var op := s.ops[o];
    if op.InvSweep? {
      LegitSweep(cfg, s, op, order);
    } else if Invalidating(op) {
      forall c | c in op.matched ensures c in s.regOp && (Owning(op, c) ==> c in Held(s)) {
        assert Mentions(op, c);
        SubjectFacts(cfg, s, o, c);
      }
      LegitMark(cfg, s, op, order);
    } else {
      assert Mentions(op, op.c);
      SubjectFacts(cfg, s, o, op.c);
      LegitCall(cfg, s, op, order);
    }
  }

  lemma PurgeTables(cfg: Config, s: State, o: OpId, i: nat, t: string, u: string)
    requires ValidConfig(cfg) && Tables(s) && Shaped(cfg, s) && o in s.ops && i < |s.shards|
    ensures Tables(Purged(cfg, s, o, i, t, u))
  {
    forall c | c in Matched(s.shards[i], t, u) ensures c in s.acquired {
      MatchedKnown(cfg, s, i, t, u, c);
    }
  }

  lemma ActionTables(cfg: Config, s: State, o: OpId, a: Action)
    requires ValidConfig(cfg) && Tables(s) && Shaped(cfg, s) && o in s.ops
    requires (forall c :: Subject(a, c) ==> c in s.regOp) && (a.Purge? ==> a.i < |s.shards|)
    ensures Tables(Perform(cfg, s, o, a))
  {
    if a.Purge? {
      PurgeTables(cfg, s, o, a.i, a.tenant, a.user);
    } else if !a.Skip? {
      assert Subject(a, a.c);
    }
  }

  lemma KnownStep(cfg: Config, s: State, o: OpId, op': Op, a: Action)
    requires ValidConfig(cfg) && Known(s) && Shaped(cfg, s) && o in s.ops && Legit(cfg, s, op', a)
    ensures Known(Done(cfg, s, o, op', a))
  {
    ActionTables(cfg, s.(ops := s.ops[o := op']), o, a);
    var r := Done(cfg, s, o, op', a);
    forall p, c | p in r.ops && Mentions(r.ops[p], c) ensures c in r.regOp {
      if p != o { assert Mentions(s.ops[p], c); }
    }
  }

  /** One shard after an action on it. */
  lemma ShapeAfter(cfg: Config, acquired: set<Profile>, i: nat, sh: Shard<Profile>, a: Action)
    requires ValidConfig(cfg) && ShardShape(cfg, acquired, i, sh)
    requires (a.Put? ==> i == ShardOf(cfg, a.key) && a.c in acquired && a.key in a.c.topics)
    ensures a.Put? ==> ShardShape(cfg, acquired, i, Insert(sh, a.key, a.c.id, a.c))
    ensures a.Drop? ==> ShardShape(cfg, acquired, i, Remove(sh, a.key, a.c.id))
    ensures a.Purge? ==> ShardShape(cfg, acquired, i, RemoveAll(sh, MatchedIds(sh, a.tenant, a.user)))
  {
    if a.Put? {
      InsertMeans(sh, a.key, a.c.id, a.c);
    } else if a.Drop? {
      RemoveMeans(sh, a.key, a.c.id);
    } else if a.Purge? {
      RemoveAllMeans(sh, MatchedIds(sh, a.tenant, a.user));
    }
  }

  lemma ShapeGrows(cfg: Config, acquired: set<Profile>, more: set<Profile>, i: nat, sh: Shard<Profile>)
    requires ValidConfig(cfg) && ShardShape(cfg, acquired, i, sh) && acquired <= more
    ensures ShardShape(cfg, more, i, sh)
  {
  }

  /** What an action does to shard `i`. */
  lemma ShardAfter(cfg: Config, s: State, o: OpId, op': Op, a: Action, i: nat)
    requires ValidConfig(cfg) && |s.shards| == cfg.count && i < cfg.count && (a.Purge? ==> a.i < |s.shards|)
    ensures var r, sh := Done(cfg, s, o, op', a), s.shards[i];
      && s.acquired <= r.acquired && (a.Put? || a.Drop? || a.Purge? ==> r.acquired == s.acquired)
      && r.shards[i] == if a.Put? && i == ShardOf(cfg, a.key) then Insert(sh, a.key, a.c.id, a.c)
                        else if a.Drop? && i == ShardOf(cfg, a.key) then Remove(sh, a.key, a.c.id)
                        else if a.Purge? && i == a.i then RemoveAll(sh, MatchedIds(sh, a.tenant, a.user))
                        else sh
  {
  }

  lemma ShapeStep(cfg: Config, s: State, o: OpId, op': Op, a: Action)
    requires ValidConfig(cfg) && Shaped(cfg, s) && Legit(cfg, s, op', a)
    ensures Shaped(cfg, Done(cfg, s, o, op', a))
  {
    var r := Done(cfg, s, o, op', a);
    forall i | 0 <= i < |r.shards| ensures ShardShape(cfg, r.acquired, i, r.shards[i]) {
      assert ShardShape(cfg, s.acquired, i, s.shards[i]);
      ShardAfter(cfg, s, o, op', a, i);
      if r.shards[i] == s.shards[i] {
        ShapeGrows(cfg, s.acquired, r.acquired, i, s.shards[i]);
      } else {
        ShapeAfter(cfg, s.acquired, i, s.shards[i], a);
      }
    }
  }

  lemma AdmissionExact(limits: Limits, q: Counters, held: set<Profile>, c: Profile, held': set<Profile>)
    requires Counts(q, held) && WithinLimits(limits, held) && c !in held && Check(q, limits, c.tenant, c.user).None?
    requires held' == held + {c}
    ensures Counts(Acquired(q, c.tenant, c.user), held') && WithinLimits(limits, held')
  {
    AcquireCounts(q, held, c);
    AdmissionKeepsLimits(q, limits, held, c);
  }

  lemma ReleaseExact(limits: Limits, q: Counters, held: set<Profile>, c: Profile, held': set<Profile>)
    requires Counts(q, held) && WithinLimits(limits, held) && c in held && held' == held - {c}
    ensures Counts(Released(q, c.tenant, c.user), held') && WithinLimits(limits, held')
  {
    ReleaseCounts(q, held, c);
    ReleaseKeepsLimits(limits, held, c);
  }

  lemma HeldStep(cfg: Config, s: State, o: OpId, op': Op, a: Action)
    requires ValidConfig(cfg) && |s.shards| == cfg.count && (a.Take? ==> a.c !in s.releases)
    ensures Held(Done(cfg, s, o, op', a)) ==
      if a.Take? then Held(s) + {a.c} else if a.Give? then Held(s) - {a.c} else Held(s)
  {
  }

  lemma QuotaStep(cfg: Config, s: State, o: OpId, op': Op, a: Action)
    requires ValidConfig(cfg) && |s.shards| == cfg.count && QuotaExact(cfg, s) && Legit(cfg, s, op', a)
    ensures QuotaExact(cfg, Done(cfg, s, o, op', a))
  {
    var r := Done(cfg, s, o, op', a);
    HeldStep(cfg, s, o, op', a);
    if a.Take? {
      AdmissionExact(cfg.limits, s.quota, Held(s), a.c, Held(r));
    } else if a.Give? {
      ReleaseExact(cfg.limits, s.quota, Held(s), a.c, Held(r));
    }
  }

  lemma TallyStep(cfg: Config, s: State, op: Op, order: seq<Profile>)
    ensures var (op', a) := Program(cfg, s, op, order);
      && (Counting(op') <==> Counting(op))
      && (Counting(op) ==> Tally(op') == Tally(op) + if a.Mark? then 1 else 0)
  {
  }

  lemma OpShapeStep(cfg: Config, s: State, op: Op, order: seq<Profile>)
    requires |s.shards| == cfg.count && OpShape(cfg.count, op) && OrderFor(s, op, order)
    ensures OpShape(cfg.count, Program(cfg, s, op, order).0)
  {
  }

  lemma WonStep(cfg: Config, s: State, o: OpId, op': Op, a: Action, p: OpId)
    requires ValidConfig(cfg) && |s.shards| == cfg.count && (a.Mark? ==> a.c !in s.owner)
    ensures Won(Done(cfg, s, o, op', a), p) == if a.Mark? && p == o then Won(s, p) + {a.c} else Won(s, p)
  {
  }

  lemma WinsStep(cfg: Config, s: State, o: OpId, op': Op, a: Action, p: OpId)
    requires ValidConfig(cfg) && |s.shards| == cfg.count && o in s.ops && p in s.ops && WinsOk(s, p, s.ops[p])
    requires Counting(op') <==> Counting(s.ops[o])
    requires Counting(op') ==> Tally(op') == Tally(s.ops[o]) + if a.Mark? then 1 else 0
    requires a.Mark? ==> a.c !in s.owner
    ensures var r := Done(cfg, s, o, op', a); WinsOk(r, p, r.ops[p])
  {
    WonStep(cfg, s, o, op', a, p);
    assert a.Mark? ==> a.c !in Won(s, p);
  }

  lemma ViewDone(cfg: Config, s: State, o: OpId, op': Op, a: Action, c: Profile)
    requires ValidConfig(cfg) && Tables(s) && Shaped(cfg, s) && c in s.regOp && o in s.ops && Legit(cfg, s, op', a)
    ensures ViewOf(cfg, Done(cfg, s, o, op', a), c) == After(cfg, ViewOf(cfg, s, c), c, o, op', a)
  {
    ViewStep(cfg, s, o, op', a, c);
  }

  lemma ViewKept(cfg: Config, s: State, o: OpId, op': Op, a: Action, c: Profile, p: OpId)
    requires ValidConfig(cfg) && Known(s) && Shaped(cfg, s) && c in s.regOp && o in s.ops && Legit(cfg, s, op', a)
    requires Kept(cfg, ViewOf(cfg, s, c), c, o, op', a)
    requires p in s.ops && With(cfg, ViewOf(cfg, s, c), c, p, s.ops[p])
    ensures var r := Done(cfg, s, o, op', a);
            Alone(cfg, ViewOf(cfg, r, c), c) && With(cfg, ViewOf(cfg, r, c), c, p, r.ops[p])
  {
    ViewDone(cfg, s, o, op', a, c);
    if p != o {
      OthersKeep(cfg, ViewOf(cfg, s, c), After(cfg, ViewOf(cfg, s, c), c, o, op', a), c, o, p, s.ops[p]);
    }
  }

  lemma ViewsStep(cfg: Config, s: State, o: OpId, op': Op, a: Action)
    requires ValidConfig(cfg) && Core(cfg, s) && o in s.ops && Legit(cfg, s, op', a) && OpShape(cfg.count, op')
    requires forall c {:trigger ViewOf(cfg, s, c)} :: c in s.regOp ==> Kept(cfg, ViewOf(cfg, s, c), c, o, op', a)
    ensures Viewed(cfg, Done(cfg, s, o, op', a))
  {
    var r := Done(cfg, s, o, op', a);
    forall c | c in r.regOp ensures Alone(cfg, ViewOf(cfg, r, c), c) {
      ViewKept(cfg, s, o, op', a, c, o);
    }
    forall c, p | c in r.regOp && p in r.ops ensures With(cfg, ViewOf(cfg, r, c), c, p, r.ops[p]) {
      ViewKept(cfg, s, o, op', a, c, p);
    }
  }

  lemma DoneKeeps(cfg: Config, s: State, o: OpId, op': Op, a: Action)
    requires ValidConfig(cfg) && Inv(cfg, s) && o in s.ops && Legit(cfg, s, op', a) && OpShape(cfg.count, op')
    requires forall c {:trigger ViewOf(cfg, s, c)} :: c in s.regOp ==> Kept(cfg, ViewOf(cfg, s, c), c, o, op', a)
    requires Counting(op') <==> Counting(s.ops[o])
    requires Counting(op') ==> Tally(op') == Tally(s.ops[o]) + if a.Mark? then 1 else 0
    ensures Inv(cfg, Done(cfg, s, o, op', a))
  {
    ViewsStep(cfg, s, o, op', a);
    KnownStep(cfg, s, o, op', a);
    ShapeStep(cfg, s, o, op', a);
    QuotaStep(cfg, s, o, op', a);
    var r := Done(cfg, s, o, op', a);
    forall p | p in r.ops ensures WinsOk(r, p, r.ops[p]) { WinsStep(cfg, s, o, op', a, p); }
  }

  lemma ProgramKept(cfg: Config, s: State, o: OpId, order: seq<Profile>, c: Profile)
    requires ValidConfig(cfg) && Core(cfg, s) && Enabled(s, Advance(o, order)) && !Finished(s.ops[o]) && c in s.regOp
    ensures var (op', a) := Program(cfg, s, s.ops[o], order); Kept(cfg, ViewOf(cfg, s, c), c, o, op', a)
  {
    if Registering(s.ops[o]) {
      RegisterStep(cfg, s, o, c);
    } else if Invalidating(s.ops[o]) {
      InvalidateStep(cfg, s, o, order, c);
    } else {
      UnregisterStep(cfg, s, o, c);
    }
  }

  lemma FinishedStays(cfg: Config, s: State, o: OpId, order: seq<Profile>)
    requires ValidConfig(cfg) && |s.shards| == cfg.count && o in s.ops && Finished(s.ops[o])
    ensures Apply(cfg, s, Advance(o, order)) == s
  {
  }

  lemma AdvanceKeeps(cfg: Config, s: State, o: OpId, order: seq<Profile>)
    requires ValidConfig(cfg) && Inv(cfg, s) && Enabled(s, Advance(o, order))
    ensures Inv(cfg, Apply(cfg, s, Advance(o, order)))
  {
    if Finished(s.ops[o]) {
      FinishedStays(cfg, s, o, order);
    } else {
      var (op', a) := Program(cfg, s, s.ops[o], order);
      TallyStep(cfg, s, s.ops[o], order);
      OpShapeStep(cfg, s, s.ops[o], order);
      LegitStep(cfg, s, o, order);
      forall c | c in s.regOp ensures Kept(cfg, ViewOf(cfg, s, c), c, o, op', a) { ProgramKept(cfg, s, o, order, c); }
      DoneKeeps(cfg, s, o, op', a);
    }
  }

  // ---- Calls and closes ----

  lemma NewView(cfg: Config, s: State, o: OpId, d: Profile)
    requires ValidConfig(cfg) && Known(s) && Shaped(cfg, s) && Enabled(s, StartRegister(o, d))
    ensures d !in s.regOp
    ensures var v := ViewOf(cfg, Apply(cfg, s, StartRegister(o, d)), d);
      && v.regId == o && v.reg == RegCheck(d) && v.ownId.None? && v.sweptId.None?
      && !v.acquired && !v.registered && v.releases == 0 && v.entries == {} && v.listed == {}
  {
  }

  lemma OldView(cfg: Config, s: State, o: OpId, d: Profile, c: Profile)
    requires ValidConfig(cfg) && Known(s) && |s.shards| == cfg.count && Enabled(s, StartRegister(o, d)) && c in s.regOp
    ensures ViewOf(cfg, Apply(cfg, s, StartRegister(o, d)), c) == ViewOf(cfg, s, c)
  {
  }

  lemma StartRegisterWith(cfg: Config, s: State, o: OpId, d: Profile, c: Profile, p: OpId)
    requires ValidConfig(cfg) && Core(cfg, s) && Enabled(s, StartRegister(o, d))
    requires (c == d || c in s.regOp) && (p == o || p in s.ops)
    ensures var r := Apply(cfg, s, StartRegister(o, d)); With(cfg, ViewOf(cfg, r, c), c, p, r.ops[p])
  {
    var r := Apply(cfg, s, StartRegister(o, d));
    if c == d {
      NewView(cfg, s, o, d);
      if p != o {
        assert !Mentions(s.ops[p], d);
      }
    } else {
      OldView(cfg, s, o, d, c);
      assert p != o ==> With(cfg, ViewOf(cfg, s, c), c, p, s.ops[p]);
    }
  }

  /** The rest of the invariant does not depend on an operation that has only just started. */
  lemma StartRest(cfg: Config, s: State, r: State, o: OpId, op: Op)
    requires ValidConfig(cfg) && Known(s) && QuotaExact(cfg, s) && WinsCounted(s)
    requires r.quota == s.quota && r.acquired == s.acquired && r.releases == s.releases && r.owner == s.owner
    requires r.ops == s.ops || (o !in s.ops && r.ops == s.ops[o := op] && (Counting(op) ==> Tally(op) == 0))
    ensures QuotaExact(cfg, r) && WinsCounted(r)
  {
  }

  lemma StartTables(cfg: Config, s: State, step: Step)
    requires ValidConfig(cfg) && Tables(s) && |s.shards| == cfg.count && Enabled(s, step) && !step.Advance?
    ensures Tables(Apply(cfg, s, step))
  {
  }

  lemma StartMentioned(cfg: Config, s: State, step: Step)
    requires ValidConfig(cfg) && Mentioned(s) && |s.shards| == cfg.count && Enabled(s, step) && !step.Advance?
    requires s.registered <= s.regOp.Keys
    ensures Mentioned(Apply(cfg, s, step))
  {
    var r := Apply(cfg, s, step);
    forall p, c | p in r.ops && Mentions(r.ops[p], c) ensures c in r.regOp {
      assert p in s.ops ==> (Mentions(s.ops[p], c) ==> c in s.regOp);
    }
  }

  lemma StartShaped(cfg: Config, s: State, step: Step)
    requires ValidConfig(cfg) && Shaped(cfg, s) && Enabled(s, step) && !step.Advance?
    ensures Shaped(cfg, Apply(cfg, s, step))
  {
    var r := Apply(cfg, s, step);
    assert r.shards == s.shards && r.acquired == s.acquired;
  }

  lemma StartKnown(cfg: Config, s: State, step: Step)
    requires ValidConfig(cfg) && Known(s) && Shaped(cfg, s) && Enabled(s, step) && !step.Advance?
    ensures Known(Apply(cfg, s, step)) && Shaped(cfg, Apply(cfg, s, step))
  {
    StartTables(cfg, s, step);
    StartMentioned(cfg, s, step);
    StartShaped(cfg, s, step);
  }

  lemma StartRegisterKeeps(cfg: Config, s: State, o: OpId, d: Profile)
    requires ValidConfig(cfg) && Core(cfg, s) && Enabled(s, StartRegister(o, d))
    ensures Viewed(cfg, Apply(cfg, s, StartRegister(o, d)))
  {
    var r := Apply(cfg, s, StartRegister(o, d));
    forall c | c in r.regOp ensures Alone(cfg, ViewOf(cfg, r, c), c) {
      if c == d { NewView(cfg, s, o, d); } else { OldView(cfg, s, o, d, c); }
    }
    forall c, p | c in r.regOp && p in r.ops ensures With(cfg, ViewOf(cfg, r, c), c, p, r.ops[p]) {
      StartRegisterWith(cfg, s, o, d, c, p);
    }
  }

  /** A view in which only the overlap mark and the closed flag may have been set. */
  ghost predicate Darker(v: View, w: View) {
    w == v.(overlapped := w.overlapped, closed := w.closed) && (v.overlapped ==> w.overlapped) && (v.closed ==> w.closed)
  }

  lemma DarkerKeeps(cfg: Config, v: View, w: View, c: Profile, p: OpId, op: Op)
    requires ValidConfig(cfg) && Alone(cfg, v, c) && Darker(v, w)
    ensures Alone(cfg, w, c) && (With(cfg, v, c, p, op) ==> With(cfg, w, c, p, op))
  {
  }

  lemma StartView(cfg: Config, s: State, step: Step, c: Profile)
    requires ValidConfig(cfg) && Known(s) && |s.shards| == cfg.count && Enabled(s, step) && c in s.regOp
    requires step.StartUnregister? || step.StartInvalidate? || step.CloseHub? || step.CloseClient?
    ensures Darker(ViewOf(cfg, s, c), ViewOf(cfg, Apply(cfg, s, step), c))
  {
  }

  lemma StartUnregisterWith(cfg: Config, s: State, o: OpId, d: Profile, c: Profile)
    requires ValidConfig(cfg) && Core(cfg, s) && Enabled(s, StartUnregister(o, d)) && c in s.regOp
    ensures With(cfg, ViewOf(cfg, Apply(cfg, s, StartUnregister(o, d)), c), c, o, UnregMark(d))
  {
  }

  lemma StartInvalidateWith(cfg: Config, s: State, o: OpId, t: string, u: string, c: Profile)
    requires ValidConfig(cfg) && Known(s) && Shaped(cfg, s) && Enabled(s, StartInvalidate(o, t, u)) && c in s.regOp
    ensures With(cfg, ViewOf(cfg, Apply(cfg, s, StartInvalidate(o, t, u)), c), c, o, InvSweep(t, u, 0, 0))
  {
  }

  lemma StartWith(cfg: Config, s: State, step: Step, c: Profile, p: OpId)
    requires ValidConfig(cfg) && Core(cfg, s) && Enabled(s, step) && c in s.regOp && p in Apply(cfg, s, step).ops
    requires step.StartUnregister? || step.StartInvalidate? || step.CloseHub? || step.CloseClient?
    ensures var r := Apply(cfg, s, step); With(cfg, ViewOf(cfg, r, c), c, p, r.ops[p])
  {
    if p in s.ops {
      StartView(cfg, s, step, c);
      DarkerKeeps(cfg, ViewOf(cfg, s, c), ViewOf(cfg, Apply(cfg, s, step), c), c, p, s.ops[p]);
    } else if step.StartUnregister? {
      StartUnregisterWith(cfg, s, step.o, step.c, c);
    } else {
      StartInvalidateWith(cfg, s, step.o, step.tenant, step.user, c);
    }
  }

  lemma StartAlone(cfg: Config, s: State, step: Step, c: Profile)
    requires ValidConfig(cfg) && Known(s) && |s.shards| == cfg.count && Enabled(s, step) && c in s.regOp
    requires Alone(cfg, ViewOf(cfg, s, c), c)
    requires step.StartUnregister? || step.StartInvalidate? || step.CloseHub? || step.CloseClient?
    ensures Alone(cfg, ViewOf(cfg, Apply(cfg, s, step), c), c)
  {
    StartView(cfg, s, step, c);
    DarkerKeeps(cfg, ViewOf(cfg, s, c), ViewOf(cfg, Apply(cfg, s, step), c), c, 0, RegCheck(c));
  }

  lemma StartKeeps(cfg: Config, s: State, step: Step)
    requires ValidConfig(cfg) && Core(cfg, s) && Enabled(s, step)
    requires step.StartUnregister? || step.StartInvalidate? || step.CloseHub? || step.CloseClient?
    ensures Viewed(cfg, Apply(cfg, s, step))
  {
    var r := Apply(cfg, s, step);
    forall c | c in r.regOp ensures Alone(cfg, ViewOf(cfg, r, c), c) {
      StartAlone(cfg, s, step, c);
    }
    forall c, p | c in r.regOp && p in r.ops ensures With(cfg, ViewOf(cfg, r, c), c, p, r.ops[p]) {
      StartWith(cfg, s, step, c, p);
    }
  }

  // ---- Every run ----

  lemma InitInv(cfg: Config)
    requires ValidConfig(cfg)
    ensures Inv(cfg, Init(cfg))
  {
  }

  lemma CallRest(cfg: Config, s: State, step: Step)
    requires ValidConfig(cfg) && |s.shards| == cfg.count && Known(s) && QuotaExact(cfg, s) && WinsCounted(s) && Enabled(s, step)
    requires step.StartUnregister? || step.StartInvalidate? || step.CloseHub? || step.CloseClient?
    ensures QuotaExact(cfg, Apply(cfg, s, step)) && WinsCounted(Apply(cfg, s, step))
  {
    var r := Apply(cfg, s, step);
    if step.StartUnregister? || step.StartInvalidate? {
      StartRest(cfg, s, r, step.o, r.ops[step.o]);
    } else {
      StartRest(cfg, s, r, 0, RegDone(Profile("", "", "", []), false));
    }
  }

  lemma CallKeeps(cfg: Config, s: State, step: Step)
    requires ValidConfig(cfg) && Inv(cfg, s) && Enabled(s, step)
    requires step.StartUnregister? || step.StartInvalidate? || step.CloseHub? || step.CloseClient?
    ensures Inv(cfg, Apply(cfg, s, step))
  {
    StartKnown(cfg, s, step);
    StartKeeps(cfg, s, step);
    CallRest(cfg, s, step);
  }

  lemma RegisterCallKeeps(cfg: Config, s: State, o: OpId, c: Profile)
    requires ValidConfig(cfg) && Inv(cfg, s) && Enabled(s, StartRegister(o, c))
    ensures Inv(cfg, Apply(cfg, s, StartRegister(o, c)))
  {
    StartKnown(cfg, s, StartRegister(o, c));
    StartRegisterKeeps(cfg, s, o, c);
    StartRest(cfg, s, Apply(cfg, s, StartRegister(o, c)), o, RegCheck(c));
  }

  lemma NextKeeps(cfg: Config, s: State, step: Step)
    requires ValidConfig(cfg) && Inv(cfg, s)
    ensures Inv(cfg, Next(cfg, s, step))
  {
    if Enabled(s, step) {
      match step {
        case Advance(o, order) => AdvanceKeeps(cfg, s, o, order);
        case StartRegister(o, c) => RegisterCallKeeps(cfg, s, o, c);
        case _ => CallKeeps(cfg, s, step);
      }
    }
  }

  lemma {:induction false} RunInv(cfg: Config, steps: seq<Step>)
    requires ValidConfig(cfg)
    ensures Inv(cfg, Run(cfg, steps))
  {
    if steps == [] {
      InitInv(cfg);
    } else {
      RunInv(cfg, steps[..|steps| - 1]);
      NextKeeps(cfg, Run(cfg, steps[..|steps| - 1]), steps[|steps| - 1]);
    }
  }
}
