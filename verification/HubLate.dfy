/** Which entries of clients that are no longer live the index keeps: exactly those that were
    inserted too late, whatever raced with whatever. */
module HubLate {
  import opened Quota
  import opened HubProtocol
  import opened HubInvariant
  import opened HubSafety

  /** The keys under which the client was inserted too late. */
  ghost function LateOf(s: State, c: Profile): set<string> {
    set k | k in c.topics && (c, k) in s.late
  }

  /** The client by itself: what is late is an entry; and an entry of a marked client is late,
      or the winner of the swap has still to come for it. */
  ghost predicate LateAlone(cfg: Config, v: View, late: set<string>, c: Profile)
    requires ValidConfig(cfg)
  {
    && late <= v.entries
    && (v.ownId.Some? ==> forall k :: k in v.entries ==>
          k in late || v.own.UnregClose? || v.own.UnregRemove? || (Invalidating(v.own) && !Swept(v.own, ShardOf(cfg, k))))
  }

  /** The client and a running invalidation of its user: an entry in a shard already swept is
      late, or is just being removed. */
  ghost predicate LateWith(cfg: Config, v: View, late: set<string>, c: Profile, op: Op)
    requires ValidConfig(cfg)
  {
    Invalidating(op) && ForUser(op, c) ==>
      forall k :: k in v.entries && Swept(op, ShardOf(cfg, k)) ==> k in late || Removing(v, c)
  }

  /** How an action changes what is late; `hot` says that an insertion comes too late. */
  ghost function LateAct(cfg: Config, late: set<string>, c: Profile, hot: bool, a: Action): set<string>
    requires ValidConfig(cfg)
  {
    match a
    case Put(d, key) => if d == c && hot then late + {key} else late
    case Drop(d, key) => if d == c then late - {key} else late
    case Purge(i, t, u) => if c.tenant == t && c.user == u then set k | k in late && ShardOf(cfg, k) != i else late
    case _ => late
  }

  lemma LateStep(cfg: Config, s: State, o: OpId, op': Op, a: Action, c: Profile)
    requires ValidConfig(cfg) && |s.shards| == cfg.count && (a.Put? ==> a.key in a.c.topics) && (a.Purge? ==> a.i < |s.shards|)
    ensures var hot := a.Put? && TooLate(s.(ops := s.ops[o := op']), c, ShardOf(cfg, a.key));
      LateOf(Done(cfg, s, o, op', a), c) == LateAct(cfg, LateOf(s, c), c, hot, a)
  {
  }

  // ---- One section, seen from one client ----

  /** The client after a section of operation `o`; `hot` is about the section's insertion. */
  ghost predicate LateKept(cfg: Config, v: View, late: set<string>, c: Profile, o: OpId, op': Op, a: Action, hot: bool)
    requires ValidConfig(cfg)
  {
    var w, late' := After(cfg, v, c, o, op', a), LateAct(cfg, late, c, hot, a);
    LateAlone(cfg, w, late', c) && LateWith(cfg, w, late', c, op')
  }

  /** Register inserts its next key. */
  lemma InsertLate(cfg: Config, v: View, late: set<string>, c: Profile, o: OpId, op: Op, hot: bool)
    requires ValidConfig(cfg) && Before(cfg, v, c, o, op) && LateAlone(cfg, v, late, c)
    requires op.RegInsert? && op.c == c && op.i < |c.topics| && (v.ownId.Some? ==> hot)
    ensures LateKept(cfg, v, late, c, o, RegInsert(c, op.i + 1), Put(c, c.topics[op.i]), hot)
  {
  }

  lemma RegisterLate(cfg: Config, v: View, late: set<string>, c: Profile, o: OpId, op: Op, op': Op, a: Action, hot: bool)
    requires ValidConfig(cfg) && Before(cfg, v, c, o, op) && LateAlone(cfg, v, late, c)
    requires Registering(op) && RegisterFlows(op, op', a) && (v.ownId.Some? && a.Put? && a.c == c ==> hot)
    ensures LateKept(cfg, v, late, c, o, op', a, hot)
  {
    if op.c != c {
      NotMine(v, c, o, op);
      assert After(cfg, v, c, o, op', a) == v && LateAct(cfg, late, c, hot, a) == late;
    } else if a.Put? {
      InsertLate(cfg, v, late, c, o, op, hot);
    } else {
      var w := After(cfg, v, c, o, op', a);
      assert w.entries == v.entries && w.ownId == v.ownId && w.own == v.own;
    }
  }

  lemma UnregisterLate(cfg: Config, v: View, late: set<string>, c: Profile, o: OpId, op: Op, op': Op, a: Action)
    requires ValidConfig(cfg) && Before(cfg, v, c, o, op) && LateAlone(cfg, v, late, c)
    requires !Registering(op) && !Counting(op) && !Finished(op) && UnregisterFlows(v, c, op, op', a)
    ensures LateKept(cfg, v, late, c, o, op', a, false)
  {
  }

  lemma SweepLate(cfg: Config, v: View, late: set<string>, c: Profile, o: OpId, op: Op, op': Op, a: Action)
    requires ValidConfig(cfg) && Before(cfg, v, c, o, op) && LateAlone(cfg, v, late, c) && LateWith(cfg, v, late, c, op)
    requires op.InvSweep? && InvalidateFlows(cfg.count, v, c, op, op', a)
    ensures LateKept(cfg, v, late, c, o, op', a, false)
  {
  }

  /** A section that is about other clients. */
  lemma StrangerLate(cfg: Config, v: View, late: set<string>, c: Profile, o: OpId, op: Op, op': Op)
    requires ValidConfig(cfg) && Roles(v, c, o, op) && LateAlone(cfg, v, late, c) && LateWith(cfg, v, late, c, op)
    requires SameFor(op, op', c)
    ensures LateAlone(cfg, Move(v, o, op'), late, c) && LateWith(cfg, Move(v, o, op'), late, c, op')
  {
  }

  lemma MarkLate(cfg: Config, v: View, late: set<string>, c: Profile, o: OpId, op: Op, op': Op, a: Action)
    requires ValidConfig(cfg) && Before(cfg, v, c, o, op) && LateAlone(cfg, v, late, c) && LateWith(cfg, v, late, c, op)
    requires op.InvMark? && op.matched != [] && op.matched[0] == c && InvalidateFlows(cfg.count, v, c, op, op', a)
    ensures LateKept(cfg, v, late, c, o, op', a, false)
  {
  }

  lemma CloseLate(cfg: Config, v: View, late: set<string>, c: Profile, o: OpId, op: Op, op': Op, a: Action)
    requires ValidConfig(cfg) && Before(cfg, v, c, o, op) && LateAlone(cfg, v, late, c) && LateWith(cfg, v, late, c, op)
    requires (op.InvClose? || op.InvRelease?) && op.matched[0] == c && InvalidateFlows(cfg.count, v, c, op, op', a)
    ensures LateKept(cfg, v, late, c, o, op', a, false)
  {
  }

  lemma RevokeLate(cfg: Config, v: View, late: set<string>, c: Profile, o: OpId, op: Op, op': Op, a: Action)
    requires ValidConfig(cfg) && Before(cfg, v, c, o, op) && LateAlone(cfg, v, late, c) && LateWith(cfg, v, late, c, op)
    requires (op.InvMark? || op.InvClose? || op.InvRelease?) && InvalidateFlows(cfg.count, v, c, op, op', a)
    ensures LateKept(cfg, v, late, c, o, op', a, false)
  {
    if op.matched == [] || op.matched[0] != c {
      StrangerSame(cfg.count, v, c, op, op', a);
      StrangerLate(cfg, v, late, c, o, op, op');
    } else if op.InvMark? {
      MarkLate(cfg, v, late, c, o, op, op', a);
    } else {
      CloseLate(cfg, v, late, c, o, op, op', a);
    }
  }

  lemma OnlyRegisterPuts(count: nat, v: View, c: Profile, op: Op, op': Op, a: Action)
    requires !Registering(op) && Flows(count, v, c, op, op', a)
    ensures !a.Put?
  {
  }

  lemma FlowsLate(cfg: Config, v: View, late: set<string>, c: Profile, o: OpId, op: Op, op': Op, a: Action, hot: bool)
    requires ValidConfig(cfg) && Before(cfg, v, c, o, op) && LateAlone(cfg, v, late, c) && LateWith(cfg, v, late, c, op)
    requires !Finished(op) && Flows(cfg.count, v, c, op, op', a) && (v.ownId.Some? && a.Put? && a.c == c ==> hot)
    ensures LateKept(cfg, v, late, c, o, op', a, hot)
  {
    if Registering(op) {
      RegisterLate(cfg, v, late, c, o, op, op', a, hot);
    } else {
      OnlyRegisterPuts(cfg.count, v, c, op, op', a);
      assert LateAct(cfg, late, c, hot, a) == LateAct(cfg, late, c, false, a);
      if op.InvSweep? {
        SweepLate(cfg, v, late, c, o, op, op', a);
      } else if Invalidating(op) {
        RevokeLate(cfg, v, late, c, o, op, op', a);
      } else {
        UnregisterLate(cfg, v, late, c, o, op, op', a);
      }
    }
  }

  /** What a section of operation `o` leaves to another invalidation. */
  lemma OthersLate(cfg: Config, v: View, late: set<string>, c: Profile, o: OpId, op: Op, op': Op, a: Action, hot: bool, pop: Op)
    requires ValidConfig(cfg) && Before(cfg, v, c, o, op) && LateWith(cfg, v, late, c, pop)
    requires Later(v, After(cfg, v, c, o, op', a), c, o) && (a.Purge? ==> Invalidating(op'))
    requires a.Put? && a.c == c && Invalidating(pop) && ForUser(pop, c) && Swept(pop, ShardOf(cfg, a.key)) ==> hot
    ensures LateWith(cfg, After(cfg, v, c, o, op', a), LateAct(cfg, late, c, hot, a), c, pop)
  {
  }

  // ---- Whole states ----

  ghost predicate LateKnown(s: State) {
    forall e :: e in s.late ==> e.0 in s.regOp && e.1 in e.0.topics
  }

  ghost predicate LateViewed(cfg: Config, s: State)
    requires ValidConfig(cfg) && |s.shards| == cfg.count
  {
    && (forall c {:trigger ViewOf(cfg, s, c)} :: c in s.regOp ==> LateAlone(cfg, ViewOf(cfg, s, c), LateOf(s, c), c))
    && (forall c, p {:trigger ViewOf(cfg, s, c), s.ops[p]} :: c in s.regOp && p in s.ops ==>
          LateWith(cfg, ViewOf(cfg, s, c), LateOf(s, c), c, s.ops[p]))
  }

  ghost predicate LateInv(cfg: Config, s: State)
    requires ValidConfig(cfg)
  {
    |s.shards| == cfg.count && LateKnown(s) && LateViewed(cfg, s)
  }

  /** Whether the insertion that is about to be performed comes too late for client `c`. */
  ghost predicate Hot(cfg: Config, s: State, o: OpId, op': Op, a: Action, c: Profile)
    requires ValidConfig(cfg)
  {
    a.Put? && TooLate(s.(ops := s.ops[o := op']), c, ShardOf(cfg, a.key))
  }

  lemma ProgramLate(cfg: Config, s: State, o: OpId, order: seq<Profile>, c: Profile)
    requires ValidConfig(cfg) && Core(cfg, s) && LateInv(cfg, s)
    requires Enabled(s, Advance(o, order)) && !Finished(s.ops[o]) && c in s.regOp
    ensures var (op', a) := Program(cfg, s, s.ops[o], order);
      LateKept(cfg, ViewOf(cfg, s, c), LateOf(s, c), c, o, op', a, Hot(cfg, s, o, op', a, c))
  {
    var (op', a) := Program(cfg, s, s.ops[o], order);
    ProgramFlows(cfg, s, o, order, c);
    assert LateWith(cfg, ViewOf(cfg, s, c), LateOf(s, c), c, s.ops[o]);
    FlowsLate(cfg, ViewOf(cfg, s, c), LateOf(s, c), c, o, s.ops[o], op', a, Hot(cfg, s, o, op', a, c));
  }

  lemma PurgeIsInvalidating(cfg: Config, s: State, op: Op, order: seq<Profile>)
    ensures var (op', a) := Program(cfg, s, op, order); a.Purge? ==> Invalidating(op')
  {
  }

  lemma LateOther(cfg: Config, s: State, o: OpId, op': Op, a: Action, c: Profile, p: OpId)
    requires ValidConfig(cfg) && |s.shards| == cfg.count && c in s.regOp && o in s.ops && p in s.ops && p != o
    requires Before(cfg, ViewOf(cfg, s, c), c, o, s.ops[o]) && LateWith(cfg, ViewOf(cfg, s, c), LateOf(s, c), c, s.ops[p])
    requires Kept(cfg, ViewOf(cfg, s, c), c, o, op', a) && (a.Purge? ==> Invalidating(op'))
    ensures var hot := Hot(cfg, s, o, op', a, c);
      LateWith(cfg, After(cfg, ViewOf(cfg, s, c), c, o, op', a), LateAct(cfg, LateOf(s, c), c, hot, a), c, s.ops[p])
  {
    assert s.ops[o := op'][p] == s.ops[p];
    OthersLate(cfg, ViewOf(cfg, s, c), LateOf(s, c), c, o, s.ops[o], op', a, Hot(cfg, s, o, op', a, c), s.ops[p]);
  }

  lemma LateClient(cfg: Config, s: State, o: OpId, op': Op, a: Action, c: Profile, p: OpId)
    requires ValidConfig(cfg) && Core(cfg, s) && LateInv(cfg, s) && c in s.regOp && o in s.ops && p in s.ops && Legit(cfg, s, op', a)
    requires Kept(cfg, ViewOf(cfg, s, c), c, o, op', a) && (a.Purge? ==> Invalidating(op'))
    requires LateKept(cfg, ViewOf(cfg, s, c), LateOf(s, c), c, o, op', a, Hot(cfg, s, o, op', a, c))
    ensures var r := Done(cfg, s, o, op', a);
      LateAlone(cfg, ViewOf(cfg, r, c), LateOf(r, c), c) && LateWith(cfg, ViewOf(cfg, r, c), LateOf(r, c), c, r.ops[p])
  {
    ViewDone(cfg, s, o, op', a, c);
    LateStep(cfg, s, o, op', a, c);
    if p != o {
      LateOther(cfg, s, o, op', a, c, p);
    }
  }

  lemma LateKnownStep(cfg: Config, s: State, o: OpId, op': Op, a: Action)
    requires ValidConfig(cfg) && |s.shards| == cfg.count && LateKnown(s) && Legit(cfg, s, op', a)
    ensures LateKnown(Done(cfg, s, o, op', a))
  {
    assert a.Put? ==> Subject(a, a.c);
  }

  lemma AdvanceClient(cfg: Config, s: State, o: OpId, order: seq<Profile>, c: Profile, p: OpId)
    requires ValidConfig(cfg) && Core(cfg, s) && LateInv(cfg, s) && Enabled(s, Advance(o, order)) && !Finished(s.ops[o])
    requires c in s.regOp && p in s.ops
    ensures var (op', a) := Program(cfg, s, s.ops[o], order);
      var r := Done(cfg, s, o, op', a);
      LateAlone(cfg, ViewOf(cfg, r, c), LateOf(r, c), c) && LateWith(cfg, ViewOf(cfg, r, c), LateOf(r, c), c, r.ops[p])
  {
    var (op', a) := Program(cfg, s, s.ops[o], order);
    LegitStep(cfg, s, o, order);
    PurgeIsInvalidating(cfg, s, s.ops[o], order);
    ProgramKept(cfg, s, o, order, c);
    ProgramLate(cfg, s, o, order, c);
    LateClient(cfg, s, o, op', a, c, p);
  }

  lemma AdvanceLate(cfg: Config, s: State, o: OpId, order: seq<Profile>)
    requires ValidConfig(cfg) && Core(cfg, s) && LateInv(cfg, s) && Enabled(s, Advance(o, order)) && !Finished(s.ops[o])
    ensures var (op', a) := Program(cfg, s, s.ops[o], order); LateInv(cfg, Done(cfg, s, o, op', a))
  {
    var (op', a) := Program(cfg, s, s.ops[o], order);
    var r := Done(cfg, s, o, op', a);
    LegitStep(cfg, s, o, order);
    LateKnownStep(cfg, s, o, op', a);
    forall c, p | c in s.regOp && p in s.ops
      ensures LateAlone(cfg, ViewOf(cfg, r, c), LateOf(r, c), c) && LateWith(cfg, ViewOf(cfg, r, c), LateOf(r, c), c, r.ops[p])
    {
      AdvanceClient(cfg, s, o, order, c, p);
    }
    forall c | c in r.regOp ensures LateAlone(cfg, ViewOf(cfg, r, c), LateOf(r, c), c) {
      AdvanceClient(cfg, s, o, order, c, o);
    }
  }

  // ---- Calls and closes ----

  lemma DarkerLate(cfg: Config, v: View, w: View, late: set<string>, c: Profile, op: Op)
    requires ValidConfig(cfg) && Darker(v, w)
    ensures LateAlone(cfg, v, late, c) ==> LateAlone(cfg, w, late, c)
    ensures LateWith(cfg, v, late, c, op) ==> LateWith(cfg, w, late, c, op)
  {
  }

  lemma StartRegisterLate(cfg: Config, s: State, o: OpId, d: Profile)
    requires ValidConfig(cfg) && Known(s) && Shaped(cfg, s) && LateInv(cfg, s) && Enabled(s, StartRegister(o, d))
    ensures LateInv(cfg, Apply(cfg, s, StartRegister(o, d)))
  {
    var r := Apply(cfg, s, StartRegister(o, d));
    forall c, p | c in r.regOp && p in r.ops
      ensures LateAlone(cfg, ViewOf(cfg, r, c), LateOf(r, c), c) && LateWith(cfg, ViewOf(cfg, r, c), LateOf(r, c), c, r.ops[p])
    {
      if c == d {
        NewView(cfg, s, o, d);
        assert LateOf(r, d) == {};
      } else {
        OldView(cfg, s, o, d, c);
        assert LateOf(r, c) == LateOf(s, c);
        assert p != o ==> LateWith(cfg, ViewOf(cfg, s, c), LateOf(s, c), c, s.ops[p]);
      }
    }
  }

  lemma StartClient(cfg: Config, s: State, step: Step, c: Profile)
    requires ValidConfig(cfg) && Known(s) && |s.shards| == cfg.count && Enabled(s, step) && c in s.regOp
    requires step.StartUnregister? || step.StartInvalidate? || step.CloseHub? || step.CloseClient?
    ensures var r := Apply(cfg, s, step);
      && LateOf(r, c) == LateOf(s, c)
      && (LateAlone(cfg, ViewOf(cfg, s, c), LateOf(s, c), c) ==> LateAlone(cfg, ViewOf(cfg, r, c), LateOf(r, c), c))
      && forall op :: LateWith(cfg, ViewOf(cfg, s, c), LateOf(s, c), c, op) ==> LateWith(cfg, ViewOf(cfg, r, c), LateOf(r, c), c, op)
  {
    var r := Apply(cfg, s, step);
    assert LateOf(r, c) == LateOf(s, c);
    StartView(cfg, s, step, c);
    forall op { DarkerLate(cfg, ViewOf(cfg, s, c), ViewOf(cfg, r, c), LateOf(s, c), c, op); }
  }

  lemma NewLate(cfg: Config, v: View, late: set<string>, c: Profile, op: Op)
    requires ValidConfig(cfg) && (op.UnregMark? || (op.InvSweep? && op.i == 0))
    ensures LateWith(cfg, v, late, c, op)
  {
  }

  lemma StartLate(cfg: Config, s: State, step: Step)
    requires ValidConfig(cfg) && Known(s) && LateInv(cfg, s) && Enabled(s, step)
    requires step.StartUnregister? || step.StartInvalidate? || step.CloseHub? || step.CloseClient?
    ensures LateInv(cfg, Apply(cfg, s, step))
  {
    var r := Apply(cfg, s, step);
    forall c | c in r.regOp ensures LateAlone(cfg, ViewOf(cfg, r, c), LateOf(r, c), c) {
      StartClient(cfg, s, step, c);
    }
    forall c, p | c in r.regOp && p in r.ops ensures LateWith(cfg, ViewOf(cfg, r, c), LateOf(r, c), c, r.ops[p]) {
      StartClient(cfg, s, step, c);
      if p in s.ops {
        assert r.ops[p] == s.ops[p] && LateWith(cfg, ViewOf(cfg, s, c), LateOf(s, c), c, s.ops[p]);
      } else {
        NewLate(cfg, ViewOf(cfg, r, c), LateOf(r, c), c, r.ops[p]);
      }
    }
  }

  lemma {:induction false} RunLate(cfg: Config, steps: seq<Step>)
    requires ValidConfig(cfg)
    ensures Inv(cfg, Run(cfg, steps)) && LateInv(cfg, Run(cfg, steps))
  {
    RunInv(cfg, steps);
    if steps == [] {
      assert Init(cfg).late == {};
    } else {
      var s, step := Run(cfg, steps[..|steps| - 1]), steps[|steps| - 1];
      RunLate(cfg, steps[..|steps| - 1]);
      if Enabled(s, step) {
        match step {
          case Advance(o, order) =>
            if Finished(s.ops[o]) { FinishedStays(cfg, s, o, order); } else { AdvanceLate(cfg, s, o, order); }
          case StartRegister(o, d) => StartRegisterLate(cfg, s, o, d);
          case _ => StartLate(cfg, s, step);
        }
      }
    }
  }
}
