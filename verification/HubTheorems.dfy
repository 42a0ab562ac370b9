/** The main results about the concurrent hub, for every run. */
module HubTheorems {
  import opened Options
  import opened Quota
  import opened Shards
  import opened HubProtocol
  import opened HubInvariant
  import opened HubSafety
  import opened HubLate
  import opened HubCalls

  /** The clients that hold their connection: acquired and not marked unregistered. */
  ghost function Live(s: State): set<Profile> {
    set c | c in s.acquired && c !in s.owner
  }

  /** All calls have returned. */
  ghost predicate Quiet(s: State) {
    forall o :: o in s.ops ==> Finished(s.ops[o])
  }

  /** In every reachable state the counters count exactly the clients acquired and not
      released, every enforced limit holds of them, and no client is released twice. */
  lemma QuotaSafety(cfg: Config, steps: seq<Step>)
    requires ValidConfig(cfg)
    ensures var s := Run(cfg, steps);
      && Counts(s.quota, Held(s))
      && WithinLimits(cfg.limits, Held(s))
      && forall c :: s.releases[c] <= 1 && (c in s.releases ==> c in s.acquired)
  {
    RunInv(cfg, steps);
    var s := Run(cfg, steps);
    forall c ensures s.releases[c] <= 1 && (c in s.releases ==> c in s.acquired) {
      if c in s.releases {
        assert Alone(cfg, ViewOf(cfg, s, c), c);
      }
    }
  }

  /** Whenever a Release is about to run, each counter it touches is positive: the guards
      in Release never hide a lost decrement. */
  lemma ReleaseGuardsIdle(cfg: Config, steps: seq<Step>, o: OpId, c: Profile)
    requires ValidConfig(cfg)
    requires var s := Run(cfg, steps);
      o in s.ops && (s.ops[o] == UnregRelease(c) || (s.ops[o].InvRelease? && s.ops[o].matched != [] && s.ops[o].matched[0] == c))
    ensures var q := Run(cfg, steps).quota;
      && q.active > 0 && Get(q.users, UserKey(c.tenant, c.user)) > 0
      && (c.tenant != "" ==> Get(q.tenants, c.tenant) > 0)
  {
    RunInv(cfg, steps);
    var s := Run(cfg, steps);
    assert Mentions(s.ops[o], c);
    SubjectFacts(cfg, s, o, c);
    ReleaseCounts(s.quota, Held(s), c);
  }

  /** A client marked unregistered is closed, or the winner of the swap is about to close it. */
  lemma MarkedIsClosed(cfg: Config, steps: seq<Step>, c: Profile)
    requires ValidConfig(cfg) && c in Run(cfg, steps).owner
    ensures var s := Run(cfg, steps);
      && s.owner[c] in s.ops
      && (c in s.closed || AboutToClose(s.ops[s.owner[c]], c))
  {
    RunInv(cfg, steps);
    var s := Run(cfg, steps);
    assert Alone(cfg, ViewOf(cfg, s, c), c);
  }

  /** An InvalidateUser returns the number of clients whose swap it won, each of its user,
      however many shards it found them in. */
  lemma InvalidateCounts(cfg: Config, steps: seq<Step>, o: OpId)
    requires ValidConfig(cfg)
    requires var s := Run(cfg, steps); o in s.ops && s.ops[o].InvDone?
    ensures var s := Run(cfg, steps);
      && s.ops[o].closedCount == |Won(s, o)|
      && forall c :: c in Won(s, o) ==>
           c.tenant == s.ops[o].tenant && c.user == s.ops[o].user && c in s.closed && s.releases[c] == 1
  {
    RunInv(cfg, steps);
    var s := Run(cfg, steps);
    assert WinsOk(s, o, s.ops[o]);
    forall c | c in Won(s, o)
      ensures c.tenant == s.ops[o].tenant && c.user == s.ops[o].user && c in s.closed && s.releases[c] == 1
    {
      assert Alone(cfg, ViewOf(cfg, s, c), c);
    }
  }

  /** One client once all operations have finished. */
  lemma ViewAtRest(cfg: Config, v: View, c: Profile)
    requires ValidConfig(cfg) && Alone(cfg, v, c) && Finished(v.reg)
    requires (v.ownId.Some? ==> Finished(v.own)) && (v.sweptId.Some? ==> Finished(v.swept))
    ensures v.acquired && v.ownId.None? ==> forall k :: k in c.topics ==> k in v.entries
    ensures v.ownId.Some? && !v.overlapped ==> v.entries == {}
    ensures v.ownId.Some? <==> v.releases == 1
    ensures forall k :: k in v.entries ==> ShardOf(cfg, k) in v.listed
  {
  }

  lemma ClientAtRest(cfg: Config, s: State, c: Profile)
    requires ValidConfig(cfg) && Inv(cfg, s) && Quiet(s) && c in s.acquired
    ensures c in Live(s) ==> forall k :: k in c.topics ==> In(cfg, s.shards, k, c)
    ensures c !in Live(s) && c !in s.overlapped ==> EntriesOf(cfg, s.shards, c) == {}
    ensures c in s.owner <==> c in s.releases
    ensures forall k :: k in EntriesOf(cfg, s.shards, c) ==> Listing(s.shards[ShardOf(cfg, k)], c.id) == Some(c)
  {
    var v := ViewOf(cfg, s, c);
    assert Alone(cfg, v, c);
    ViewAtRest(cfg, v, c);
    assert forall k :: k in v.entries ==> In(cfg, s.shards, k, c);
  }

  /** At rest, an entry belongs to its client's keys; a live client has all of them, and a
      client that is not live has none unless an InvalidateUser overlapped its Register. */
  lemma EntriesAtRest(cfg: Config, s: State, c: Profile, k: string)
    requires ValidConfig(cfg) && Inv(cfg, s) && Quiet(s)
    ensures c in Live(s) && k in c.topics ==> In(cfg, s.shards, k, c)
    ensures In(cfg, s.shards, k, c) ==> k in c.topics && (c in Live(s) || c in s.overlapped)
  {
    var i := ShardOf(cfg, k);
    assert ShardShape(cfg, s.acquired, i, s.shards[i]);
    if c in s.acquired {
      ClientAtRest(cfg, s, c);
      assert In(cfg, s.shards, k, c) ==> k in EntriesOf(cfg, s.shards, c);
    }
  }

  /** Once all calls have returned, the counters count the live clients; every live client
      is held under all its keys; no inner map is empty, and the client tables are the unions
      of the inner maps.  For a client whose Register no InvalidateUser of its user
      overlapped, the shards hold exactly {(k, c) : c live, k one of its keys}, each key in its
      own shard, even when Unregister and InvalidateUser raced for it. */
  lemma IndexExactAtRest(cfg: Config, steps: seq<Step>)
    requires ValidConfig(cfg) && Quiet(Run(cfg, steps))
    ensures var s := Run(cfg, steps);
      && Counts(s.quota, Live(s))
      && (forall c, k :: c in Live(s) && k in c.topics ==> In(cfg, s.shards, k, c))
      && (forall i :: 0 <= i < |s.shards| ==> NoEmptyKey(s.shards[i]) && Tidy(s.shards[i]))
      && (forall i, k, id, c :: 0 <= i < |s.shards| && c !in s.overlapped ==>
            (Entry(s.shards[i], k, id) == Some(c) <==>
               i == ShardOf(cfg, k) && id == c.id && c in Live(s) && k in c.topics))
  {
    RunInv(cfg, steps);
    var s := Run(cfg, steps);
    HeldAtRest(cfg, s);
    forall c, k | c in Live(s) && k in c.topics ensures In(cfg, s.shards, k, c) {
      EntriesAtRest(cfg, s, c, k);
    }
    forall i | 0 <= i < |s.shards| ensures NoEmptyKey(s.shards[i]) && Tidy(s.shards[i]) {
      TidyAtRest(cfg, s, i);
    }
    forall i, k, id, c | 0 <= i < |s.shards| && c !in s.overlapped
      ensures Entry(s.shards[i], k, id) == Some(c) <==>
        i == ShardOf(cfg, k) && id == c.id && c in Live(s) && k in c.topics
    {
      assert ShardShape(cfg, s.acquired, i, s.shards[i]);
      EntriesAtRest(cfg, s, c, k);
    }
  }

  lemma ViewLateAtRest(cfg: Config, v: View, late: set<string>, c: Profile)
    requires ValidConfig(cfg) && Alone(cfg, v, c) && LateAlone(cfg, v, late, c)
    requires (v.acquired ==> v.ownId.Some?) && (v.ownId.Some? ==> Finished(v.own))
    ensures v.entries == late
  {
  }

  /** One client that is no longer live, once all operations have finished. */
  lemma LateAtRest(cfg: Config, s: State, c: Profile, k: string)
    requires ValidConfig(cfg) && Inv(cfg, s) && LateInv(cfg, s) && Quiet(s) && c !in Live(s)
    ensures In(cfg, s.shards, k, c) <==> (c, k) in s.late
  {
    var i := ShardOf(cfg, k);
    assert ShardShape(cfg, s.acquired, i, s.shards[i]);
    if c in s.regOp {
      var v := ViewOf(cfg, s, c);
      assert Alone(cfg, v, c) && LateAlone(cfg, v, LateOf(s, c), c);
      ViewLateAtRest(cfg, v, LateOf(s, c), c);
      assert k in v.entries <==> In(cfg, s.shards, k, c);
      assert k in LateOf(s, c) <==> (c, k) in s.late;
    }
  }

  /** Once all calls have returned, without any condition on what raced: an entry is of a live
      client under one of its keys, or it was inserted too late, that is, for a client already
      marked or into a shard that a running InvalidateUser of its user had already swept, and
      no later sweep or removal met it. */
  lemma IndexAtRest(cfg: Config, steps: seq<Step>, i: nat, k: string, id: string, c: Profile)
    requires ValidConfig(cfg) && Quiet(Run(cfg, steps)) && i < cfg.count
    ensures var s := Run(cfg, steps);
      Entry(s.shards[i], k, id) == Some(c) <==>
        && i == ShardOf(cfg, k) && id == c.id
        && (if c in Live(s) then k in c.topics else (c, k) in s.late)
  {
    RunLate(cfg, steps);
    var s := Run(cfg, steps);
    assert ShardShape(cfg, s.acquired, i, s.shards[i]);
    if c in Live(s) {
      EntriesAtRest(cfg, s, c, k);
    } else {
      LateAtRest(cfg, s, c, k);
    }
  }

  /** Such late entries only come about where an InvalidateUser overlapped the Register. */
  lemma LateOnlyByOverlap(cfg: Config, steps: seq<Step>, c: Profile, k: string)
    requires ValidConfig(cfg) && Quiet(Run(cfg, steps)) && c !in Live(Run(cfg, steps))
    ensures (c, k) in Run(cfg, steps).late ==> c in Run(cfg, steps).overlapped
  {
    RunLate(cfg, steps);
    LateAtRest(cfg, Run(cfg, steps), c, k);
    EntriesAtRest(cfg, Run(cfg, steps), c, k);
  }

  /** When an InvalidateUser has returned, every client of its user whose Register had returned
      before it started is marked, or another InvalidateUser of the user has taken it out of a
      shard and has still to mark it. */
  lemma InvalidateRevokes(cfg: Config, steps: seq<Step>, o: OpId, c: Profile)
    requires ValidConfig(cfg) && c.topics != []
    requires var s := Run(cfg, steps); o in s.ops && s.ops[o].InvDone? && Target(s, o, c)
    ensures var s := Run(cfg, steps);
      c in s.owner || (c in s.sweptBy && s.sweptBy[c] in s.ops && Pending(s.ops[s.sweptBy[c]], c))
  {
    RunCalls(cfg, steps);
    var s := Run(cfg, steps);
    assert c in s.regOp;
    var v := ViewOf(cfg, s, c);
    assert Alone(cfg, v, c) && Achieved(cfg, v, c, s.ops[o], Target(s, o, c));
  }

  /** When an Unregister has returned, its client is marked and not live any more. */
  lemma UnregisterEnds(cfg: Config, steps: seq<Step>, o: OpId, c: Profile)
    requires ValidConfig(cfg) && o in Run(cfg, steps).ops && Run(cfg, steps).ops[o] == UnregDone(c)
    ensures c in Run(cfg, steps).owner && c !in Live(Run(cfg, steps))
  {
    RunCalls(cfg, steps);
    var s := Run(cfg, steps);
    assert Mentions(s.ops[o], c);
    assert Achieved(cfg, ViewOf(cfg, s, c), c, s.ops[o], Target(s, o, c));
  }

  lemma NothingPending(s: State, p: OpId, c: Profile)
    requires Quiet(s) && p in s.ops
    ensures !Pending(s.ops[p], c)
  {
  }

  lemma TargetsAreCounted(cfg: Config, s: State, o: OpId, c: Profile)
    requires ValidConfig(cfg) && Known(s) && CallsInv(cfg, s) && Target(s, o, c)
    ensures o in s.ops && Counting(s.ops[o])
  {
    assert c in s.regOp && Achieved(cfg, ViewOf(cfg, s, c), c, s.ops[o], Target(s, o, c));
  }

  /** Once all calls have returned, no client that an InvalidateUser found registered is live. */
  lemma RevokedAtRest(cfg: Config, steps: seq<Step>, o: OpId, c: Profile)
    requires ValidConfig(cfg) && Quiet(Run(cfg, steps)) && Target(Run(cfg, steps), o, c) && c.topics != []
    ensures c in Run(cfg, steps).owner && c !in Live(Run(cfg, steps))
  {
    RunCalls(cfg, steps);
    var s := Run(cfg, steps);
    TargetsAreCounted(cfg, s, o, c);
    InvalidateRevokes(cfg, steps, o, c);
    if c !in s.owner {
      NothingPending(s, s.sweptBy[c], c);
    }
  }

  /** In every reachable state no admitted client has more topics than the limit. */
  lemma TopicsLimited(cfg: Config, steps: seq<Step>, c: Profile)
    requires ValidConfig(cfg) && cfg.limits.maxTopics > 0 && c in Run(cfg, steps).acquired
    ensures |c.topics| <= cfg.limits.maxTopics
  {
    RunTopics(cfg, steps);
  }

  lemma AdvanceMoves(cfg: Config, s: State, o: OpId)
    requires ValidConfig(cfg) && |s.shards| == cfg.count && o in s.ops && Registering(s.ops[o])
    ensures Next(cfg, s, Advance(o, [])).ops[o] == RegisterProgram(cfg, s, s.ops[o]).0
  {
  }

  /** In every reachable state, a Register passes its first checks exactly when the hub is open and
      the topics are not too many. */
  lemma RegisterChecksExactly(cfg: Config, steps: seq<Step>, o: OpId, c: Profile)
    requires ValidConfig(cfg) && o in Run(cfg, steps).ops && Run(cfg, steps).ops[o] == RegCheck(c)
    ensures var s := Run(cfg, steps);
      Next(cfg, s, Advance(o, [])).ops[o] ==
        if !s.hubClosed && (cfg.limits.maxTopics > 0 ==> |c.topics| <= cfg.limits.maxTopics) then RegAcquire(c) else RegDone(c, false)
  {
    AdvanceMoves(cfg, Run(cfg, steps), o);
  }

  lemma StepStaysClosed(cfg: Config, s: State, step: Step)
    requires ValidConfig(cfg) && |s.shards| == cfg.count && (s.hubClosed || step.CloseHub?)
    ensures Next(cfg, s, step).hubClosed
  {
  }

  lemma RunStep(cfg: Config, steps: seq<Step>, step: Step)
    requires ValidConfig(cfg)
    ensures Run(cfg, steps + [step]) == Next(cfg, Run(cfg, steps), step)
  {
    assert (steps + [step])[..|steps + [step]| - 1] == steps;
  }

  /** Once the hub has been closed it stays closed, whatever happens next. */
  lemma {:induction false} ClosedStays(cfg: Config, steps: seq<Step>, more: seq<Step>)
    requires ValidConfig(cfg)
    ensures Run(cfg, steps + [CloseHub] + more).hubClosed
    decreases |more|
  {
    if more == [] {
      assert steps + [CloseHub] + more == steps + [CloseHub];
      RunStep(cfg, steps, CloseHub);
      StepStaysClosed(cfg, Run(cfg, steps), CloseHub);
    } else {
      var before, last := steps + [CloseHub] + more[..|more| - 1], more[|more| - 1];
      ClosedStays(cfg, steps, more[..|more| - 1]);
      assert steps + [CloseHub] + more == before + [last];
      RunStep(cfg, before, last);
      StepStaysClosed(cfg, Run(cfg, before), last);
    }
  }

  /** It is then admitted, for names without a colon, exactly when one more connection keeps every
      limit. */
  lemma RegisterAdmitsExactly(cfg: Config, steps: seq<Step>, o: OpId, c: Profile)
    requires ValidConfig(cfg) && o in Run(cfg, steps).ops && Run(cfg, steps).ops[o] == RegAcquire(c)
    requires ':' !in c.tenant && ':' !in c.user
    ensures var s := Run(cfg, steps);
      Next(cfg, s, Advance(o, [])).ops[o] ==
        if WithinLimits(cfg.limits, Held(s) + {c}) then RegInsert(c, 0) else RegDone(c, false)
  {
    RunInv(cfg, steps);
    AcquireExact(cfg, Run(cfg, steps), o, c);
    AdvanceMoves(cfg, Run(cfg, steps), o);
  }

  lemma AcquireExact(cfg: Config, s: State, o: OpId, c: Profile)
    requires ValidConfig(cfg) && Core(cfg, s) && QuotaExact(cfg, s) && o in s.ops && s.ops[o] == RegAcquire(c)
    requires ':' !in c.tenant && ':' !in c.user
    ensures Check(s.quota, cfg.limits, c.tenant, c.user).None? <==> WithinLimits(cfg.limits, Held(s) + {c})
  {
    assert Mentions(s.ops[o], c);
    SubjectFacts(cfg, s, o, c);
    CheckExact(s.quota, cfg.limits, Held(s), c);
  }

  /** In every reachable state, at rest or not: an entry is in the shard of its key, under its
      client's id, and of a client that was admitted with that key; so every snapshot of
      recipients is rightful under any interleaving. */
  lemma EntriesAlwaysRightful(cfg: Config, steps: seq<Step>, i: nat, k: string, id: string, c: Profile)
    requires ValidConfig(cfg) && i < cfg.count
    ensures var s := Run(cfg, steps);
      Entry(s.shards[i], k, id) == Some(c) ==> i == ShardOf(cfg, k) && id == c.id && c in s.acquired && k in c.topics
  {
    RunInv(cfg, steps);
    var s := Run(cfg, steps);
    assert ShardShape(cfg, s.acquired, i, s.shards[i]);
  }

  lemma HeldAtRest(cfg: Config, s: State)
    requires ValidConfig(cfg) && Inv(cfg, s) && Quiet(s)
    ensures Held(s) == Live(s)
  {
    forall c | c in s.acquired ensures c in s.releases <==> c in s.owner {
      ClientAtRest(cfg, s, c);
    }
  }

  lemma TidyAtRest(cfg: Config, s: State, i: nat)
    requires ValidConfig(cfg) && Inv(cfg, s) && Quiet(s) && i < |s.shards|
    ensures NoEmptyKey(s.shards[i]) && Tidy(s.shards[i])
  {
    assert ShardShape(cfg, s.acquired, i, s.shards[i]);
    forall k, id | Entry(s.shards[i], k, id).Some? ensures Listing(s.shards[i], id) == Entry(s.shards[i], k, id) {
      var c := Entry(s.shards[i], k, id).value;
      ClientAtRest(cfg, s, c);
      assert k in EntriesOf(cfg, s.shards, c);
    }
  }

  // ---- Without the condition the index can keep a stale entry ----

  const PROFILE := Profile("id", "t", "u", ["a", "b"])

  const ONE_SHARD := Config(Limits(0, 0, 0, 0), 1, key => 0)

  ghost predicate Reached(cfg: Config, s: State)
    requires ValidConfig(cfg)
  {
    exists steps :: s == Run(cfg, steps)
  }

  lemma Go(cfg: Config, s: State, step: Step) returns (r: State)
    requires ValidConfig(cfg) && Reached(cfg, s) && |s.shards| == cfg.count
    ensures Reached(cfg, r) && r == Next(cfg, s, step)
  {
    var steps :| s == Run(cfg, steps);
    assert (steps + [step])[..|steps + [step]| - 1] == steps;
    r := Run(cfg, steps + [step]);
  }

  lemma RegisterChecked() returns (s: State)
    ensures Reached(ONE_SHARD, s) && s.ops == map[0 := RegAcquire(PROFILE)] && s.regOp == map[PROFILE := 0]
    ensures s.owner == map[] && s.shards == [Empty()] && s.quota == ZERO
  {
    assert Init(ONE_SHARD) == Run(ONE_SHARD, []);
    s := Go(ONE_SHARD, Init(ONE_SHARD), StartRegister(0, PROFILE));
    s := Go(ONE_SHARD, s, Advance(0, []));
  }

  /** Register takes its quota. */
  lemma QuotaTaken() returns (s: State)
    ensures Reached(ONE_SHARD, s) && s.ops == map[0 := RegInsert(PROFILE, 0)] && s.regOp == map[PROFILE := 0]
    ensures s.owner == map[] && s.shards == [Empty()]
  {
    s := RegisterChecked();
    s := Section(s, 0, [], RegInsert(PROFILE, 0), Take(PROFILE));
  }

  const SHARD := Shard(map["a" := map["id" := PROFILE]], map["id" := PROFILE])

  /** It inserts its first key. */
  lemma FirstKey() returns (s: State)
    ensures Reached(ONE_SHARD, s) && s.ops == map[0 := RegInsert(PROFILE, 1)] && s.regOp == map[PROFILE := 0]
    ensures s.owner == map[] && s.shards == [SHARD]
  {
    s := QuotaTaken();
    s := Go(ONE_SHARD, s, Advance(0, []));
  }

  /** The run with the Register at `reg`, an InvalidateUser at `inv`, and one shard. */
  ghost predicate Stage(s: State, reg: Op, inv: Op, marked: bool, sh: Shard<Profile>) {
    && Reached(ONE_SHARD, s) && s.shards == [sh]
    && s.ops.Keys == {0, 1} && s.ops[0] == reg && s.ops[1] == inv
    && (PROFILE in s.owner <==> marked)
  }

  lemma Section(s: State, o: OpId, order: seq<Profile>, op': Op, a: Action) returns (r: State)
    requires Reached(ONE_SHARD, s) && |s.shards| == 1 && o in s.ops && OrderFor(s, s.ops[o], order)
    requires Program(ONE_SHARD, s, s.ops[o], order) == (op', a)
    ensures Reached(ONE_SHARD, r) && r == Done(ONE_SHARD, s, o, op', a)
  {
    r := Go(ONE_SHARD, s, Advance(o, order));
  }

  lemma SweepOfShard()
    ensures Matched(SHARD, "t", "u") == {PROFILE}
    ensures RemoveAll(SHARD, MatchedIds(SHARD, "t", "u")) == Empty()
  {
    assert SHARD.clients["id"] == PROFILE;
    assert MatchedIds(SHARD, "t", "u") == {"id"};
    assert SHARD.topics["a"] - {"id"} == map[];
  }

  /** Then an InvalidateUser of its user starts. */
  lemma InvStarted() returns (s: State)
    ensures Stage(s, RegInsert(PROFILE, 1), InvSweep("t", "u", 0, 0), false, SHARD)
  {
    s := FirstKey();
    s := Go(ONE_SHARD, s, StartInvalidate(1, "t", "u"));
  }

  lemma SweepOrder(s: State)
    requires s.shards == [SHARD]
    ensures OrderFor(s, InvSweep("t", "u", 0, 0), [PROFILE])
  {
    SweepOfShard();
  }

  lemma SweepDone(s: State, op: Op)
    requires s.shards == [SHARD]
    ensures var r := Done(ONE_SHARD, s, 1, op, Purge(0, "t", "u")); r.shards == [Empty()] && r.owner == s.owner
  {
    SweepOfShard();
  }

  /** It sweeps the shard. */
  lemma SweptOut() returns (s: State)
    ensures Stage(s, RegInsert(PROFILE, 1), InvMark("t", "u", 0, [PROFILE], 0), false, Empty())
  {
    s := InvStarted();
    SweepOrder(s);
    SweepDone(s, InvMark("t", "u", 0, [PROFILE], 0));
    s := Section(s, 1, [PROFILE], InvMark("t", "u", 0, [PROFILE], 0), Purge(0, "t", "u"));
  }

  /** It wins the swap. */
  lemma SwapWon() returns (s: State)
    ensures Stage(s, RegInsert(PROFILE, 1), InvClose("t", "u", 0, [PROFILE], 0), true, Empty())
  {
    s := SweptOut();
    s := Section(s, 1, [], InvClose("t", "u", 0, [PROFILE], 0), Mark(PROFILE));
  }

  /** It closes the client. */
  lemma Closed() returns (s: State)
    ensures Stage(s, RegInsert(PROFILE, 1), InvRelease("t", "u", 0, [PROFILE], 0), true, Empty())
  {
    s := SwapWon();
    s := Section(s, 1, [], InvRelease("t", "u", 0, [PROFILE], 0), Shut(PROFILE));
  }

  /** It releases the quota. */
  lemma Revoked() returns (s: State)
    ensures Stage(s, RegInsert(PROFILE, 1), InvMark("t", "u", 0, [], 1), true, Empty())
  {
    s := Closed();
    var rest := [PROFILE][1..];
    assert rest == [];
    s := Section(s, 1, [], InvMark("t", "u", 0, rest, 1), Give(PROFILE));
  }

  /** It returns. */
  lemma Invalidated() returns (s: State)
    ensures Stage(s, RegInsert(PROFILE, 1), InvDone("t", "u", 1), true, Empty())
  {
    s := Revoked();
    s := Section(s, 1, [], InvSweep("t", "u", 1, 1), Skip);
    s := Section(s, 1, [], InvDone("t", "u", 1), Skip);
  }

  /** Register inserts its second key and returns. */
  lemma SecondKey() returns (s: State)
    ensures Stage(s, RegDone(PROFILE, true), InvDone("t", "u", 1), true, Insert(Empty(), "b", "id", PROFILE))
    ensures PROFILE in s.registered
  {
    s := Invalidated();
    s := Section(s, 0, [], RegInsert(PROFILE, 2), Put(PROFILE, "b"));
    s := Section(s, 0, [], RegDone(PROFILE, true), Return(PROFILE));
  }

  /** The deferred Unregister starts. */
  lemma UnregisterStarted() returns (s: State)
    ensures Reached(ONE_SHARD, s) && s.ops.Keys == {0, 1, 2}
    ensures Finished(s.ops[0]) && Finished(s.ops[1]) && s.ops[2] == UnregMark(PROFILE)
    ensures PROFILE in s.owner && s.shards == [Insert(Empty(), "b", "id", PROFILE)]
  {
    s := SecondKey();
    var r := Go(ONE_SHARD, s, StartUnregister(2, PROFILE));
    assert r == s.(ops := s.ops[2 := UnregMark(PROFILE)]);
    s := r;
  }

  /** It finds the client marked. */
  lemma UnregisterSkipped() returns (s: State)
    ensures Reached(ONE_SHARD, s) && Quiet(s)
    ensures PROFILE in s.owner && s.shards == [Insert(Empty(), "b", "id", PROFILE)]
  {
    s := UnregisterStarted();
    s := Section(s, 2, [], UnregDone(PROFILE), Skip);
  }

  /** The entry of the second key stays: all calls have returned, the client is not live, and
      the index still holds it. */
  lemma StaleEntryAfterOverlap()
    ensures exists steps :: var s := Run(ONE_SHARD, steps);
      Quiet(s) && PROFILE !in Live(s) && In(ONE_SHARD, s.shards, "b", PROFILE)
  {
    var s := UnregisterSkipped();
    assert In(ONE_SHARD, s.shards, "b", PROFILE);
  }
}
