/** What the calls on the concurrent hub have achieved when they return. */
module HubCalls {
  import opened Options
  import opened Quota
  import opened HubProtocol
  import opened HubInvariant
  import opened HubSafety

  /** The client was registered before invalidation `p` of its user started. */
  ghost predicate Target(s: State, p: OpId, c: Profile) {
    p in s.targets && c in s.targets[p]
  }

  /** Client `c` and an operation at `op`: an Unregister that has returned has seen it marked; and
      an invalidation that it is a target of leaves none of its entries in the shards it has
      swept, and in the end has seen it marked or swept out. */
  ghost predicate Achieved(cfg: Config, v: View, c: Profile, op: Op, target: bool)
    requires ValidConfig(cfg)
  {
    && (op.UnregDone? && op.c == c ==> v.ownId.Some?)
    && (target ==> ForUser(op, c) && v.registered)
    && (target && Invalidating(op) ==> forall k :: k in v.entries && Swept(op, ShardOf(cfg, k)) ==> Removing(v, c))
    && (target && op.InvDone? && c.topics != [] ==> v.ownId.Some? || v.sweptId.Some?)
  }

  // ---- One section, seen from one client ----

  lemma RegisterAchieves(cfg: Config, v: View, c: Profile, o: OpId, op: Op, op': Op, a: Action, target: bool)
    requires ValidConfig(cfg) && Before(cfg, v, c, o, op) && Achieved(cfg, v, c, op, target)
    requires Registering(op) && RegisterFlows(op, op', a)
    ensures Achieved(cfg, After(cfg, v, c, o, op', a), c, op', target)
  {
  }

  lemma UnregisterAchieves(cfg: Config, v: View, c: Profile, o: OpId, op: Op, op': Op, a: Action, target: bool)
    requires ValidConfig(cfg) && Before(cfg, v, c, o, op) && Achieved(cfg, v, c, op, target)
    requires !Registering(op) && !Counting(op) && !Finished(op) && UnregisterFlows(v, c, op, op', a)
    ensures Achieved(cfg, After(cfg, v, c, o, op', a), c, op', target)
  {
  }

  lemma SweepAchieves(cfg: Config, v: View, c: Profile, o: OpId, op: Op, op': Op, a: Action, target: bool)
    requires ValidConfig(cfg) && Before(cfg, v, c, o, op) && Achieved(cfg, v, c, op, target)
    requires op.InvSweep? && InvalidateFlows(cfg.count, v, c, op, op', a)
    ensures Achieved(cfg, After(cfg, v, c, o, op', a), c, op', target)
  {
    assert c.topics != [] && v.registered && v.ownId.None? && v.sweptId.None? ==> c.topics[0] in v.entries;
  }

  lemma RevokeAchieves(cfg: Config, v: View, c: Profile, o: OpId, op: Op, op': Op, a: Action, target: bool)
    requires ValidConfig(cfg) && Before(cfg, v, c, o, op) && Achieved(cfg, v, c, op, target)
    requires (op.InvMark? || op.InvClose? || op.InvRelease?) && InvalidateFlows(cfg.count, v, c, op, op', a)
    ensures Achieved(cfg, After(cfg, v, c, o, op', a), c, op', target)
  {
  }

  /** What a section of operation `o` leaves to another operation. */
  lemma OthersAchieve(cfg: Config, v: View, c: Profile, o: OpId, op: Op, op': Op, a: Action, pop: Op, target: bool)
    requires ValidConfig(cfg) && Before(cfg, v, c, o, op) && Later(v, After(cfg, v, c, o, op', a), c, o)
    requires Achieved(cfg, v, c, pop, target)
    ensures Achieved(cfg, After(cfg, v, c, o, op', a), c, pop, target)
  {
  }

  lemma FlowsAchieve(cfg: Config, v: View, c: Profile, o: OpId, op: Op, op': Op, a: Action, target: bool)
    requires ValidConfig(cfg) && Before(cfg, v, c, o, op) && Achieved(cfg, v, c, op, target)
    requires !Finished(op) && Flows(cfg.count, v, c, op, op', a)
    ensures Achieved(cfg, After(cfg, v, c, o, op', a), c, op', target)
  {
    if Registering(op) {
      RegisterAchieves(cfg, v, c, o, op, op', a, target);
    } else if op.InvSweep? {
      SweepAchieves(cfg, v, c, o, op, op', a, target);
    } else if Invalidating(op) {
      RevokeAchieves(cfg, v, c, o, op, op', a, target);
    } else {
      UnregisterAchieves(cfg, v, c, o, op, op', a, target);
    }
  }

  // ---- Whole states ----

  ghost predicate CallsInv(cfg: Config, s: State)
    requires ValidConfig(cfg)
  {
    && |s.shards| == cfg.count
    && (forall p :: p in s.targets ==> p in s.ops && s.targets[p] <= s.registered)
    && (forall c, p {:trigger ViewOf(cfg, s, c), s.ops[p]} :: c in s.regOp && p in s.ops ==>
          Achieved(cfg, ViewOf(cfg, s, c), c, s.ops[p], Target(s, p, c)))
  }

  lemma AdvanceClient(cfg: Config, s: State, o: OpId, order: seq<Profile>, c: Profile, p: OpId)
    requires ValidConfig(cfg) && Core(cfg, s) && CallsInv(cfg, s) && Enabled(s, Advance(o, order)) && !Finished(s.ops[o])
    requires c in s.regOp && p in s.ops
    ensures var (op', a) := Program(cfg, s, s.ops[o], order);
      var r := Done(cfg, s, o, op', a);
      Achieved(cfg, ViewOf(cfg, r, c), c, r.ops[p], Target(s, p, c))
  {
    var (op', a) := Program(cfg, s, s.ops[o], order);
    var v := ViewOf(cfg, s, c);
    LegitStep(cfg, s, o, order);
    ProgramKept(cfg, s, o, order, c);
    ProgramFlows(cfg, s, o, order, c);
    ViewDone(cfg, s, o, op', a, c);
    assert Achieved(cfg, v, c, s.ops[p], Target(s, p, c));
    if p == o {
      FlowsAchieve(cfg, v, c, o, s.ops[o], op', a, Target(s, p, c));
    } else {
      OthersAchieve(cfg, v, c, o, s.ops[o], op', a, s.ops[p], Target(s, p, c));
    }
  }

  lemma SameTargets(cfg: Config, s: State, o: OpId, op': Op, a: Action)
    requires ValidConfig(cfg) && |s.shards| == cfg.count
    ensures var r := Done(cfg, s, o, op', a); r.targets == s.targets && s.registered <= r.registered
  {
  }

  lemma AdvanceCalls(cfg: Config, s: State, o: OpId, order: seq<Profile>)
    requires ValidConfig(cfg) && Core(cfg, s) && CallsInv(cfg, s) && Enabled(s, Advance(o, order)) && !Finished(s.ops[o])
    ensures var (op', a) := Program(cfg, s, s.ops[o], order); CallsInv(cfg, Done(cfg, s, o, op', a))
  {
    var (op', a) := Program(cfg, s, s.ops[o], order);
    var r := Done(cfg, s, o, op', a);
    SameTargets(cfg, s, o, op', a);
    forall c, p | c in s.regOp && p in s.ops ensures Achieved(cfg, ViewOf(cfg, r, c), c, r.ops[p], Target(r, p, c)) {
      AdvanceClient(cfg, s, o, order, c, p);
    }
  }

  lemma DarkerAchieves(cfg: Config, v: View, w: View, c: Profile, op: Op, target: bool)
    requires ValidConfig(cfg) && Darker(v, w) && Achieved(cfg, v, c, op, target)
    ensures Achieved(cfg, w, c, op, target)
  {
  }

  /** A call that has only just started has achieved nothing yet. */
  lemma NewCall(cfg: Config, v: View, c: Profile, op: Op, target: bool)
    requires ValidConfig(cfg) && (op.RegCheck? || op.UnregMark? || (op.InvSweep? && op.i == 0))
    requires target ==> ForUser(op, c) && v.registered
    ensures Achieved(cfg, v, c, op, target)
  {
  }

  lemma StartRegisterCalls(cfg: Config, s: State, o: OpId, d: Profile)
    requires ValidConfig(cfg) && Known(s) && Shaped(cfg, s) && CallsInv(cfg, s) && Enabled(s, StartRegister(o, d))
    ensures CallsInv(cfg, Apply(cfg, s, StartRegister(o, d)))
  {
    var r := Apply(cfg, s, StartRegister(o, d));
    NewView(cfg, s, o, d);
    forall c, p | c in r.regOp && p in r.ops ensures Achieved(cfg, ViewOf(cfg, r, c), c, r.ops[p], Target(r, p, c)) {
      if p == o {
        NewCall(cfg, ViewOf(cfg, r, c), c, r.ops[p], Target(r, p, c));
      } else if c == d {
        assert !Mentions(s.ops[p], d) && d !in s.registered;
      } else {
        OldView(cfg, s, o, d, c);
        assert Achieved(cfg, ViewOf(cfg, s, c), c, s.ops[p], Target(s, p, c));
      }
    }
  }

  lemma StartTargets(cfg: Config, s: State, step: Step, p: OpId, c: Profile)
    requires ValidConfig(cfg) && |s.shards| == cfg.count && Enabled(s, step)
    requires step.StartUnregister? || step.StartInvalidate? || step.CloseHub? || step.CloseClient?
    requires (forall q :: q in s.targets ==> q in s.ops) && p in Apply(cfg, s, step).ops
    ensures var r := Apply(cfg, s, step);
      if p in s.ops then r.ops[p] == s.ops[p] && (Target(r, p, c) <==> Target(s, p, c))
      else
        && (r.ops[p].UnregMark? || (r.ops[p].InvSweep? && r.ops[p].i == 0))
        && (Target(r, p, c) ==> ForUser(r.ops[p], c) && c in s.registered)
  {
  }

  lemma StartCalls(cfg: Config, s: State, step: Step)
    requires ValidConfig(cfg) && Known(s) && CallsInv(cfg, s) && Enabled(s, step)
    requires step.StartUnregister? || step.StartInvalidate? || step.CloseHub? || step.CloseClient?
    ensures CallsInv(cfg, Apply(cfg, s, step))
  {
    var r := Apply(cfg, s, step);
    forall c, p | c in r.regOp && p in r.ops ensures Achieved(cfg, ViewOf(cfg, r, c), c, r.ops[p], Target(r, p, c)) {
      StartView(cfg, s, step, c);
      StartTargets(cfg, s, step, p, c);
      if p in s.ops {
        assert Achieved(cfg, ViewOf(cfg, s, c), c, s.ops[p], Target(s, p, c));
        DarkerAchieves(cfg, ViewOf(cfg, s, c), ViewOf(cfg, r, c), c, s.ops[p], Target(s, p, c));
      } else {
        NewCall(cfg, ViewOf(cfg, r, c), c, r.ops[p], Target(r, p, c));
      }
    }
  }

  lemma {:induction false} RunCalls(cfg: Config, steps: seq<Step>)
    requires ValidConfig(cfg)
    ensures Inv(cfg, Run(cfg, steps)) && CallsInv(cfg, Run(cfg, steps))
  {
    RunInv(cfg, steps);
    if steps == [] {
      assert Init(cfg).targets == map[];
    } else {
      var s, step := Run(cfg, steps[..|steps| - 1]), steps[|steps| - 1];
      RunCalls(cfg, steps[..|steps| - 1]);
      if Enabled(s, step) {
        match step {
          case Advance(o, order) =>
            if Finished(s.ops[o]) { FinishedStays(cfg, s, o, order); } else { AdvanceCalls(cfg, s, o, order); }
          case StartRegister(o, d) => StartRegisterCalls(cfg, s, o, d);
          case _ => StartCalls(cfg, s, step);
        }
      }
    }
  }

  // ---- Topics ----

  predicate FewTopics(cfg: Config, c: Profile) {
    cfg.limits.maxTopics > 0 ==> |c.topics| <= cfg.limits.maxTopics
  }

  ghost predicate TopicsInv(cfg: Config, s: State) {
    && (forall c :: c in s.acquired ==> FewTopics(cfg, c))
    && (forall o :: o in s.ops && (s.ops[o].RegAcquire? || s.ops[o].RegInsert?) ==> FewTopics(cfg, s.ops[o].c))
  }

  lemma ProgramTopics(cfg: Config, s: State, op: Op, order: seq<Profile>)
    requires op.RegAcquire? || op.RegInsert? ==> FewTopics(cfg, op.c)
    ensures var (op', a) := Program(cfg, s, op, order);
      && (op'.RegAcquire? || op'.RegInsert? ==> FewTopics(cfg, op'.c))
      && (a.Take? ==> FewTopics(cfg, a.c))
  {
  }

  lemma DoneTopics(cfg: Config, s: State, o: OpId, op': Op, a: Action)
    requires ValidConfig(cfg) && |s.shards| == cfg.count && TopicsInv(cfg, s)
    requires (op'.RegAcquire? || op'.RegInsert? ==> FewTopics(cfg, op'.c)) && (a.Take? ==> FewTopics(cfg, a.c))
    ensures TopicsInv(cfg, Done(cfg, s, o, op', a))
  {
    assert Done(cfg, s, o, op', a).acquired == if a.Take? then s.acquired + {a.c} else s.acquired;
  }

  lemma AdvanceTopics(cfg: Config, s: State, o: OpId, order: seq<Profile>)
    requires ValidConfig(cfg) && |s.shards| == cfg.count && TopicsInv(cfg, s) && Enabled(s, Advance(o, order))
    ensures TopicsInv(cfg, Apply(cfg, s, Advance(o, order)))
  {
    var (op', a) := Program(cfg, s, s.ops[o], order);
    ProgramTopics(cfg, s, s.ops[o], order);
    DoneTopics(cfg, s, o, op', a);
  }

  lemma {:induction false} RunTopics(cfg: Config, steps: seq<Step>)
    requires ValidConfig(cfg)
    ensures TopicsInv(cfg, Run(cfg, steps))
  {
    if steps == [] {
    } else {
      var s, step := Run(cfg, steps[..|steps| - 1]), steps[|steps| - 1];
      RunTopics(cfg, steps[..|steps| - 1]);
      if step.Advance? && Enabled(s, step) {
        AdvanceTopics(cfg, s, step.o, step.order);
      }
    }
  }
}
