/** What every step of the concurrent hub keeps.  Each client is looked at on its own: its
    view holds everything about it, a step changes the view in one of a few ways, and the
    invariant is a property of views. */
module HubInvariant {
  import opened Sequences
  import opened Options
  import opened Quota
  import opened Shards
  import opened HubProtocol

  /** One client: the operations that register, own and last swept it, its flags, the
      keys under which the index holds it and the shards that list it. */
  datatype View = View(
    regId: OpId, reg: Op,
    ownId: Option<OpId>, own: Op,
    sweptId: Option<OpId>, swept: Op,
    acquired: bool, registered: bool, closed: bool, releases: nat, overlapped: bool,
    entries: set<string>, listed: set<nat>)

  ghost function Find(m: map<Profile, OpId>, c: Profile): Option<OpId> {
    if c in m then Some(m[c]) else None
  }

  /** Where operation `o` is; any operation will do when there is none. */
  ghost function OpAt(ops: map<OpId, Op>, o: Option<OpId>): Op {
    if o.Some? && o.value in ops then ops[o.value] else InvDone("", "", 0)
  }

  ghost predicate In(cfg: Config, shards: seq<Shard<Profile>>, key: string, c: Profile)
    requires ValidConfig(cfg) && |shards| == cfg.count
  {
    Entry(shards[ShardOf(cfg, key)], key, c.id) == Some(c)
  }

  ghost function EntriesOf(cfg: Config, shards: seq<Shard<Profile>>, c: Profile): set<string>
    requires ValidConfig(cfg) && |shards| == cfg.count
  {
    set k | k in c.topics && In(cfg, shards, k, c)
  }

  ghost function ListedIn(shards: seq<Shard<Profile>>, c: Profile): set<nat> {
    set i: nat | i < |shards| && Listing(shards[i], c.id) == Some(c)
  }

  ghost function ViewOf(cfg: Config, s: State, c: Profile): View
    requires ValidConfig(cfg) && |s.shards| == cfg.count && c in s.regOp
  {
    var own := Find(s.owner, c);
    var swept := Find(s.sweptBy, c);
    View(s.regOp[c], OpAt(s.ops, Some(s.regOp[c])), own, OpAt(s.ops, own), swept, OpAt(s.ops, swept),
         c in s.acquired, c in s.registered, c in s.closed, s.releases[c], c in s.overlapped,
         EntriesOf(cfg, s.shards, c), ListedIn(s.shards, c))
  }

  // ---- How a view changes ----

  /** Operation `o` is now at `op`. */
  ghost function Move(v: View, o: OpId, op: Op): View {
    v.(reg := if v.regId == o then op else v.reg,
       own := if v.ownId == Some(o) then op else v.own,
       swept := if v.sweptId == Some(o) then op else v.swept)
  }

  /** Operation `o`, which is at `op`, has performed `a`. */
  ghost function Act(cfg: Config, v: View, c: Profile, o: OpId, op: Op, a: Action): View
    requires ValidConfig(cfg)
  {
    match a
    case Skip => v
    case Take(d) => if d == c then v.(acquired := true) else v
    case Put(d, key) =>
      if d == c then v.(entries := v.entries + {key}, listed := v.listed + {ShardOf(cfg, key)}) else v
    case Return(d) => if d == c then v.(registered := true) else v
    case Mark(d) => if d == c then v.(ownId := Some(o), own := op) else v
    case Shut(d) => if d == c then v.(closed := true) else v
    case Drop(d, key) =>
      if d == c then v.(entries := v.entries - {key}, listed := v.listed - {ShardOf(cfg, key)}) else v
    case Give(d) => if d == c then v.(releases := v.releases + 1) else v
    case Purge(i, t, u) =>
      if i in v.listed && c.tenant == t && c.user == u then
        v.(entries := (set k | k in v.entries && ShardOf(cfg, k) != i), listed := v.listed - {i},
           sweptId := Some(o), swept := op)
      else v
  }

  /** The view of `c` after operation `o` went to `op` by performing `a`. */
  ghost function After(cfg: Config, v: View, c: Profile, o: OpId, op: Op, a: Action): View
    requires ValidConfig(cfg)
  {
    Act(cfg, Move(v, o, op), c, o, op, a)
  }

  // ---- The invariant of one client ----

  /** The clients that an invalidation has swept out of a shard and still has to mark. */
  ghost predicate Pending(op: Op, c: Profile) {
    || (op.InvMark? && c in op.matched)
    || ((op.InvClose? || op.InvRelease?) && op.matched != [] && c in op.matched[1..])
  }

  /** The winner of the swap on `c`, between the swap and its Release. */
  ghost predicate Owning(op: Op, c: Profile) {
    || ((op.UnregClose? || op.UnregRemove? || op.UnregRelease?) && op.c == c)
    || ((op.InvClose? || op.InvRelease?) && op.matched != [] && op.matched[0] == c)
  }

  ghost predicate AboutToClose(op: Op, c: Profile) {
    (op.UnregClose? && op.c == c) || (op.InvClose? && op.matched != [] && op.matched[0] == c)
  }

  ghost predicate RegisterOf(op: Op, c: Profile) {
    (Registering(op) || op.RegDone?) && op.c == c
  }

  ghost predicate UnregisterOf(op: Op, c: Profile) {
    (op.UnregMark? || op.UnregClose? || op.UnregRemove? || op.UnregRelease? || op.UnregDone?) && op.c == c
  }

  /** The winner of the swap on `c` is an Unregister that is still removing its keys. */
  ghost predicate Removing(v: View, c: Profile) {
    v.ownId.Some? && v.own.UnregRemove? && v.own.c == c
  }

  ghost predicate Lifecycle(v: View, c: Profile) {
    && RegisterOf(v.reg, c)
    && (v.acquired <==> v.reg.RegInsert? || (v.reg.RegDone? && v.reg.ok))
    && (v.registered <==> v.reg.RegDone? && v.reg.ok)
    && (v.sweptId.Some? ==> v.acquired && ForUser(v.swept, c))
    && (v.sweptId.Some? && v.ownId.None? ==> Pending(v.swept, c))
    && v.releases <= 1
    && (v.releases > 0 ==> v.ownId.Some?)
    && (v.ownId.Some? ==>
          && v.acquired
          && (ForUser(v.own, c) || (UnregisterOf(v.own, c) && !v.own.UnregMark? && v.registered))
          && (v.closed || AboutToClose(v.own, c))
          && (v.releases == 0 <==> Owning(v.own, c))
          && (!v.overlapped ==> v.registered))
  }

  ghost predicate Keys(cfg: Config, v: View, c: Profile)
    requires ValidConfig(cfg)
  {
    // The index holds only acquired clients, under their own keys.
    && (v.entries != {} || v.listed != {} ==> v.acquired)
    && (forall k :: k in v.entries ==> k in c.topics)
    // The second table lists the client, except while its keys are being removed.
    && (forall k :: k in v.entries ==> ShardOf(cfg, k) in v.listed || Removing(v, c))
    // The winning Unregister has removed the keys it has passed, and in the end all of them.
    && (Removing(v, c) ==> forall k :: k in v.entries ==> v.own.i <= |c.topics| && k in c.topics[v.own.i..])
    && (v.ownId.Some? && (v.own.UnregRelease? || v.own.UnregDone?) ==> v.entries == {})
    // Without overlap, a marked client keeps an entry only where its winner has still to come.
    && (v.ownId.Some? && !v.overlapped ==> forall k :: k in v.entries ==>
          v.own.UnregClose? || v.own.UnregRemove? || (Invalidating(v.own) && !Swept(v.own, ShardOf(cfg, k))))
    // Nothing inserted for an unmarked client is missing, unless an invalidation swept it out.
    && (v.acquired && v.ownId.None? && v.sweptId.None? ==>
          forall j :: 0 <= j < (if v.reg.RegInsert? then v.reg.i else |c.topics|) && j < |c.topics| ==> c.topics[j] in v.entries)
  }

  /** Client `c` and an operation `p` that is at `op`. */
  ghost predicate Roles(v: View, c: Profile, p: OpId, op: Op) {
    && (RegisterOf(op, c) ==> v.regId == p)
    && (UnregisterOf(op, c) ==> v.registered)
    && (Owning(op, c) ==> v.ownId == Some(p))
    && ((op.InvMark? || op.InvClose? || op.InvRelease?) && c in op.matched ==> v.acquired && ForUser(op, c))
    && (v.regId == p ==> v.reg == op)
    && (v.ownId == Some(p) ==> v.own == op)
    && (v.sweptId == Some(p) ==> v.swept == op)
  }

  ghost predicate Sweeps(cfg: Config, v: View, c: Profile, op: Op)
    requires ValidConfig(cfg)
  {
    Invalidating(op) && ForUser(op, c) && !v.overlapped ==>
      && !Registering(v.reg)
      && (forall k :: k in v.entries && Swept(op, ShardOf(cfg, k)) ==> Removing(v, c))
  }

  ghost predicate OpShape(count: nat, op: Op) {
    && (op.RegInsert? || op.UnregRemove? ==> op.i <= |op.c.topics|)
    && (op.InvSweep? ==> op.i <= count)
    && (op.InvMark? || op.InvClose? || op.InvRelease? ==> op.i < count && Distinct(op.matched))
    && (op.InvClose? || op.InvRelease? ==> op.matched != [])
  }

  /** The invariant of client `c` by itself. */
  ghost predicate Alone(cfg: Config, v: View, c: Profile)
    requires ValidConfig(cfg)
  {
    Lifecycle(v, c) && Keys(cfg, v, c)
  }

  /** The invariant of client `c` with respect to operation `p`, which is at `op`. */
  ghost predicate With(cfg: Config, v: View, c: Profile, p: OpId, op: Op)
    requires ValidConfig(cfg)
  {
    Roles(v, c, p, op) && Sweeps(cfg, v, c, op) && OpShape(cfg.count, op)
  }

  // ---- Every section keeps it ----

  ghost predicate RegisterFlows(op: Op, op': Op, a: Action) {
    match op
    case RegCheck(d) => a == Skip && (op' == RegDone(d, false) || op' == RegAcquire(d))
    case RegAcquire(d) => (a == Skip && op' == RegDone(d, false)) || (a == Take(d) && op' == RegInsert(d, 0))
    case RegInsert(d, i) =>
      if i < |d.topics| then a == Put(d, d.topics[i]) && op' == RegInsert(d, i + 1)
      else a == Return(d) && op' == RegDone(d, true)
    case _ => false
  }

  ghost predicate UnregisterFlows(v: View, c: Profile, op: Op, op': Op, a: Action) {
    match op
    case UnregMark(d) =>
      || (a == Skip && op' == UnregDone(d) && (d == c ==> v.ownId.Some?))
      || (a == Mark(d) && op' == UnregClose(d) && (d == c ==> v.ownId.None?))
    case UnregClose(d) => a == Shut(d) && op' == UnregRemove(d, 0)
    case UnregRemove(d, i) =>
      if i < |d.topics| then a == Drop(d, d.topics[i]) && op' == UnregRemove(d, i + 1)
      else a == Skip && op' == UnregRelease(d)
    case UnregRelease(d) => a == Give(d) && op' == UnregDone(d)
    case _ => false
  }

  ghost predicate InvalidateFlows(count: nat, v: View, c: Profile, op: Op, op': Op, a: Action) {
    match op
    case InvSweep(t, u, i, n) =>
      if i < count then
        && op'.InvMark? && op' == InvMark(t, u, i, op'.matched, n) && a == Purge(i, t, u)
        && Distinct(op'.matched)
        && (c in op'.matched <==> i in v.listed && c.tenant == t && c.user == u)
      else a == Skip && op' == InvDone(t, u, n)
    case InvMark(t, u, i, m, n) =>
      if m == [] then a == Skip && op' == InvSweep(t, u, i + 1, n)
      else
        || (a == Skip && op' == InvMark(t, u, i, m[1..], n) && (m[0] == c ==> v.ownId.Some?))
        || (a == Mark(m[0]) && op' == InvClose(t, u, i, m, n) && (m[0] == c ==> v.ownId.None?))
    case InvClose(t, u, i, m, n) => m != [] && a == Shut(m[0]) && op' == InvRelease(t, u, i, m, n)
    case InvRelease(t, u, i, m, n) => m != [] && a == Give(m[0]) && op' == InvMark(t, u, i, m[1..], n + 1)
    case _ => false
  }

  /** The invariant of client `c`, seen from the operation that is about to run. */
  ghost predicate Before(cfg: Config, v: View, c: Profile, o: OpId, op: Op)
    requires ValidConfig(cfg)
  {
    Alone(cfg, v, c) && With(cfg, v, c, o, op)
  }

  /** What a step of operation `o` leaves to the other operations. */
  ghost predicate Later(v: View, w: View, c: Profile, o: OpId) {
    && w.regId == v.regId && (v.regId == o || w.reg == v.reg)
    && (Registering(w.reg) ==> Registering(v.reg))
    && (v.acquired ==> w.acquired) && (v.registered ==> w.registered)
    && w.overlapped == v.overlapped
    && (w.ownId == v.ownId || (v.ownId.None? && w.ownId == Some(o)))
    && (w.ownId == Some(o) || w.ownId.None? || w.own == v.own)
    && (w.sweptId == v.sweptId || w.sweptId == Some(o))
    && (w.sweptId == Some(o) || w.sweptId.None? || w.swept == v.swept)
    && (w.entries <= v.entries || Registering(v.reg))
    && (Removing(v, c) ==> Removing(w, c) || w.entries == {})
  }

  ghost predicate Kept(cfg: Config, v: View, c: Profile, o: OpId, op': Op, a: Action)
    requires ValidConfig(cfg)
  {
    var w := After(cfg, v, c, o, op', a);
    Alone(cfg, w, c) && With(cfg, w, c, o, op') && Later(v, w, c, o)
  }

  lemma OthersKeep(cfg: Config, v: View, w: View, c: Profile, o: OpId, p: OpId, pop: Op)
    requires ValidConfig(cfg) && Later(v, w, c, o) && p != o && With(cfg, v, c, p, pop)
    ensures With(cfg, w, c, p, pop)
  {
  }

  /** For client `c`, an invalidation at `op'` stands where it stood at `op`. */
  ghost predicate SameFor(op: Op, op': Op, c: Profile) {
    && Invalidating(op) && Invalidating(op') && op'.tenant == op.tenant && op'.user == op.user
    && (forall i :: Swept(op', i) <==> Swept(op, i))
    && (Pending(op', c) <==> Pending(op, c))
    && (Owning(op', c) <==> Owning(op, c))
    && (AboutToClose(op', c) <==> AboutToClose(op, c))
  }

  lemma SameKeepsClient(cfg: Config, v: View, c: Profile, o: OpId, op: Op, op': Op)
    requires ValidConfig(cfg) && Alone(cfg, v, c) && Roles(v, c, o, op) && SameFor(op, op', c)
    ensures Alone(cfg, Move(v, o, op'), c)
  {
    var w := Move(v, o, op');
    assert Lifecycle(w, c);
  }

  lemma SameKeepsRoles(cfg: Config, v: View, c: Profile, o: OpId, op: Op, op': Op)
    requires ValidConfig(cfg) && Lifecycle(v, c) && With(cfg, v, c, o, op)
    requires SameFor(op, op', c) && OpShape(cfg.count, op')
    ensures With(cfg, Move(v, o, op'), c, o, op')
  {
    assert Roles(Move(v, o, op'), c, o, op');
  }

  lemma SameIsLater(v: View, c: Profile, o: OpId, op: Op, op': Op)
    requires Lifecycle(v, c) && Roles(v, c, o, op) && SameFor(op, op', c)
    ensures Later(v, Move(v, o, op'), c, o)
  {
  }

  /** For other clients than the one at hand, an invalidation stands where it stood. */
  lemma StrangerSame(count: nat, v: View, c: Profile, op: Op, op': Op, a: Action)
    requires (op.InvMark? || op.InvClose? || op.InvRelease?) && (op.matched == [] || op.matched[0] != c)
    requires InvalidateFlows(count, v, c, op, op', a)
    ensures SameFor(op, op', c)
  {
    if op.matched != [] {
      assert op.matched == [op.matched[0]] + op.matched[1..];
    }
  }

  lemma StrangerShape(count: nat, v: View, c: Profile, op: Op, op': Op, a: Action)
    requires (op.InvMark? || op.InvClose? || op.InvRelease?) && OpShape(count, op) && InvalidateFlows(count, v, c, op, op', a)
    ensures OpShape(count, op')
  {
  }

  lemma InvStrangerKeeps(cfg: Config, v: View, c: Profile, o: OpId, op: Op, op': Op, a: Action)
    requires ValidConfig(cfg) && Before(cfg, v, c, o, op)
    requires (op.InvMark? || op.InvClose? || op.InvRelease?) && (op.matched == [] || op.matched[0] != c)
    requires InvalidateFlows(cfg.count, v, c, op, op', a)
    ensures Kept(cfg, v, c, o, op', a)
  {
    StrangerSame(cfg.count, v, c, op, op', a);
    StrangerShape(cfg.count, v, c, op, op', a);
    SameKeepsClient(cfg, v, c, o, op, op');
    SameKeepsRoles(cfg, v, c, o, op, op');
    SameIsLater(v, c, o, op, op');
    assert After(cfg, v, c, o, op', a) == Move(v, o, op');
  }

  lemma NotMine(v: View, c: Profile, o: OpId, op: Op)
    requires Lifecycle(v, c) && Roles(v, c, o, op) && !Invalidating(op) && !op.InvDone? && op.c != c
    ensures v.regId != o && v.ownId != Some(o) && v.sweptId != Some(o)
  {
  }

  lemma RegisterStrangerKeeps(cfg: Config, v: View, c: Profile, o: OpId, op: Op, op': Op, a: Action)
    requires ValidConfig(cfg) && Before(cfg, v, c, o, op) && Registering(op) && op.c != c
    requires RegisterFlows(op, op', a)
    ensures Kept(cfg, v, c, o, op', a)
  {
    NotMine(v, c, o, op);
    assert After(cfg, v, c, o, op', a) == v;
  }

  lemma UnregisterStrangerKeeps(cfg: Config, v: View, c: Profile, o: OpId, op: Op, op': Op, a: Action)
    requires ValidConfig(cfg) && Before(cfg, v, c, o, op)
    requires op.UnregMark? || op.UnregClose? || op.UnregRemove? || op.UnregRelease?
    requires op.c != c
    requires UnregisterFlows(v, c, op, op', a)
    ensures Kept(cfg, v, c, o, op', a)
  {
    NotMine(v, c, o, op);
    assert After(cfg, v, c, o, op', a) == v;
  }

  lemma RegCheckKeeps(cfg: Config, v: View, c: Profile, o: OpId, op: Op, op': Op, a: Action)
    requires ValidConfig(cfg) && Before(cfg, v, c, o, op) && op.RegCheck? && op.c == c
    requires RegisterFlows(op, op', a)
    ensures Kept(cfg, v, c, o, op', a)
  {
  }

  lemma RegAcquireKeeps(cfg: Config, v: View, c: Profile, o: OpId, op: Op, op': Op, a: Action)
    requires ValidConfig(cfg) && Before(cfg, v, c, o, op) && op.RegAcquire? && op.c == c
    requires RegisterFlows(op, op', a)
    ensures Kept(cfg, v, c, o, op', a)
  {
  }

  lemma RegInsertKeeps(cfg: Config, v: View, c: Profile, o: OpId, op: Op, op': Op, a: Action)
    requires ValidConfig(cfg) && Before(cfg, v, c, o, op) && op.RegInsert? && op.c == c
    requires RegisterFlows(op, op', a)
    ensures Kept(cfg, v, c, o, op', a)
  {
  }

  lemma UnregMarkKeeps(cfg: Config, v: View, c: Profile, o: OpId, op: Op, op': Op, a: Action)
    requires ValidConfig(cfg) && Before(cfg, v, c, o, op) && op.UnregMark? && op.c == c
    requires UnregisterFlows(v, c, op, op', a)
    ensures Kept(cfg, v, c, o, op', a)
  {
  }

  lemma UnregCloseKeeps(cfg: Config, v: View, c: Profile, o: OpId, op: Op, op': Op, a: Action)
    requires ValidConfig(cfg) && Before(cfg, v, c, o, op) && op.UnregClose? && op.c == c
    requires UnregisterFlows(v, c, op, op', a)
    ensures Kept(cfg, v, c, o, op', a)
  {
  }

  lemma UnregRemoveKeeps(cfg: Config, v: View, c: Profile, o: OpId, op: Op, op': Op, a: Action)
    requires ValidConfig(cfg) && Before(cfg, v, c, o, op) && op.UnregRemove? && op.c == c
    requires UnregisterFlows(v, c, op, op', a)
    ensures Kept(cfg, v, c, o, op', a)
  {
  }

  lemma UnregReleaseKeeps(cfg: Config, v: View, c: Profile, o: OpId, op: Op, op': Op, a: Action)
    requires ValidConfig(cfg) && Before(cfg, v, c, o, op) && op.UnregRelease? && op.c == c
    requires UnregisterFlows(v, c, op, op', a)
    ensures Kept(cfg, v, c, o, op', a)
  {
  }

  lemma InvEndKeeps(cfg: Config, v: View, c: Profile, o: OpId, op: Op, op': Op)
    requires ValidConfig(cfg) && Before(cfg, v, c, o, op) && op.InvSweep? && op.i == cfg.count
    requires op' == InvDone(op.tenant, op.user, op.closedCount)
    ensures Kept(cfg, v, c, o, op', Skip)
  {
  }

  /** A shard sweep that finds the client. */
  lemma PurgeKeeps(cfg: Config, v: View, c: Profile, o: OpId, op: Op, op': Op)
    requires ValidConfig(cfg) && Before(cfg, v, c, o, op) && op.InvSweep? && op.i < cfg.count
    requires op'.InvMark? && op' == InvMark(op.tenant, op.user, op.i, op'.matched, op.closedCount)
    requires Distinct(op'.matched) && c in op'.matched && op.i in v.listed && ForUser(op, c)
    ensures Kept(cfg, v, c, o, op', Purge(op.i, op.tenant, op.user))
  {
  }

  /** A shard sweep that does not find the client. */
  lemma PurgeOtherKeeps(cfg: Config, v: View, c: Profile, o: OpId, op: Op, op': Op)
    requires ValidConfig(cfg) && Before(cfg, v, c, o, op) && op.InvSweep? && op.i < cfg.count
    requires op'.InvMark? && op' == InvMark(op.tenant, op.user, op.i, op'.matched, op.closedCount)
    requires Distinct(op'.matched) && c !in op'.matched && !(op.i in v.listed && ForUser(op, c))
    ensures Kept(cfg, v, c, o, op', Purge(op.i, op.tenant, op.user))
  {
  }

  lemma InvMarkKeeps(cfg: Config, v: View, c: Profile, o: OpId, op: Op, op': Op, a: Action)
    requires ValidConfig(cfg) && Before(cfg, v, c, o, op) && op.InvMark? && op.matched != [] && op.matched[0] == c
    requires InvalidateFlows(cfg.count, v, c, op, op', a)
    ensures Kept(cfg, v, c, o, op', a)
  {
  }

  lemma InvCloseKeeps(cfg: Config, v: View, c: Profile, o: OpId, op: Op, op': Op, a: Action)
    requires ValidConfig(cfg) && Before(cfg, v, c, o, op) && op.InvClose? && op.matched != [] && op.matched[0] == c
    requires InvalidateFlows(cfg.count, v, c, op, op', a)
    ensures Kept(cfg, v, c, o, op', a)
  {
  }

  lemma InvReleaseKeeps(cfg: Config, v: View, c: Profile, o: OpId, op: Op, op': Op, a: Action)
    requires ValidConfig(cfg) && Before(cfg, v, c, o, op) && op.InvRelease? && op.matched != [] && op.matched[0] == c
    requires InvalidateFlows(cfg.count, v, c, op, op', a)
    ensures Kept(cfg, v, c, o, op', a)
  {
  }

  // ---- A step of the hub is a step of every view ----

  /** What is keyed by an id is an acquired client of that id, in the shard of its key. */
  ghost predicate ShardShape(cfg: Config, acquired: set<Profile>, i: nat, sh: Shard<Profile>)
    requires ValidConfig(cfg)
  {
    && NoEmptyKey(sh) && Rooted(sh)
    && (forall id :: Listing(sh, id).Some? ==> Listing(sh, id).value.id == id && Listing(sh, id).value in acquired)
    && (forall k, id :: Entry(sh, k, id).Some? ==>
          var c := Entry(sh, k, id).value;
          i == ShardOf(cfg, k) && c.id == id && c in acquired && k in c.topics)
  }

  lemma PutViews(cfg: Config, shards: seq<Shard<Profile>>, d: Profile, key: string, c: Profile)
    requires ValidConfig(cfg) && |shards| == cfg.count && (d.id == c.id ==> d == c) && key in d.topics
    ensures var i := ShardOf(cfg, key);
            var r := shards[i := Insert(shards[i], key, d.id, d)];
            && EntriesOf(cfg, r, c) == EntriesOf(cfg, shards, c) + (if d == c then {key} else {})
            && ListedIn(r, c) == ListedIn(shards, c) + (if d == c then {i} else {})
  {
  }

  lemma DropViews(cfg: Config, shards: seq<Shard<Profile>>, d: Profile, key: string, c: Profile)
    requires ValidConfig(cfg) && |shards| == cfg.count && (d.id == c.id ==> d == c)
    ensures var i := ShardOf(cfg, key);
            var r := shards[i := Remove(shards[i], key, d.id)];
            && EntriesOf(cfg, r, c) == EntriesOf(cfg, shards, c) - (if d == c then {key} else {})
            && ListedIn(r, c) == ListedIn(shards, c) - (if d == c then {i} else {})
  {
    RemoveMeans(shards[ShardOf(cfg, key)], key, d.id);
  }

  lemma PurgeViews(cfg: Config, acquired: set<Profile>, shards: seq<Shard<Profile>>, i: nat, t: string, u: string, c: Profile)
    requires ValidConfig(cfg) && |shards| == cfg.count && i < |shards| && ShardShape(cfg, acquired, i, shards[i])
    requires forall d :: d in acquired && d.id == c.id ==> d == c
    ensures c in Matched(shards[i], t, u) <==> i in ListedIn(shards, c) && c.tenant == t && c.user == u
    ensures var r := shards[i := RemoveAll(shards[i], MatchedIds(shards[i], t, u))];
            if c in Matched(shards[i], t, u) then
              && EntriesOf(cfg, r, c) == (set k | k in EntriesOf(cfg, shards, c) && ShardOf(cfg, k) != i)
              && ListedIn(r, c) == ListedIn(shards, c) - {i}
            else
              EntriesOf(cfg, r, c) == EntriesOf(cfg, shards, c) && ListedIn(r, c) == ListedIn(shards, c)
  {
    var sh := shards[i];
    RemoveAllMeans(sh, MatchedIds(sh, t, u));
    if c in Matched(sh, t, u) {
      var id :| id in sh.clients && sh.clients[id] == c;
      assert Listing(sh, id) == Some(c);
    }
    assert c.id in MatchedIds(sh, t, u) ==> Listing(sh, c.id).value == c;
    assert c in Matched(sh, t, u) <==> c.id in MatchedIds(sh, t, u);
  }
}
