/** Connection quotas: the counters, the operations on them, and what they count. */
module Quota {

  import opened Options
  import opened Text

  /** Capacity limits; a limit that is not positive is not enforced. */
  datatype Limits = Limits(maxConnections: int, maxPerUser: int, maxPerTenant: int, maxTopics: int)

  datatype QuotaError = MaxConnectionsReached | MaxPerUserReached | MaxPerTenantReached

  /** What identifies a connection: its unique id, its owner and its routing keys. */
  datatype Profile = Profile(id: string, tenant: string, user: string, topics: seq<string>)

  datatype Counters = Counters(active: int, users: map<string, int>, tenants: map<string, int>)

  const ZERO := Counters(0, map[], map[])

  /** Reading a missing key of a Go map of integers yields zero. */
  function Get(m: map<string, int>, k: string): int {
    if k in m then m[k] else 0
  }

  function UserKey(tenant: string, user: string): string {
    tenant + ":" + user
  }

  function Check(q: Counters, limits: Limits, tenant: string, user: string): Option<QuotaError> {
    if limits.maxConnections > 0 && q.active >= limits.maxConnections then
      Some(MaxConnectionsReached)
    else if limits.maxPerUser > 0 && user != "" && Get(q.users, UserKey(tenant, user)) >= limits.maxPerUser then
      Some(MaxPerUserReached)
    else if limits.maxPerTenant > 0 && tenant != "" && Get(q.tenants, tenant) >= limits.maxPerTenant then
      Some(MaxPerTenantReached)
    else
      None
  }

  function Increment(m: map<string, int>, k: string): map<string, int> {
    m[k := Get(m, k) + 1]
  }

  /** Decrement guarded by `> 0`; an entry that reaches zero is deleted. */
  function Decrement(m: map<string, int>, k: string): map<string, int> {
    if Get(m, k) > 0 then
      if Get(m, k) == 1 then m - {k} else m[k := Get(m, k) - 1]
    else
      m
  }

  function Acquired(q: Counters, tenant: string, user: string): Counters {
    Counters(q.active + 1,
             Increment(q.users, UserKey(tenant, user)),
             if tenant != "" then Increment(q.tenants, tenant) else q.tenants)
  }

  function Released(q: Counters, tenant: string, user: string): Counters {
    Counters(if q.active > 0 then q.active - 1 else q.active,
             Decrement(q.users, UserKey(tenant, user)),
             if tenant != "" then Decrement(q.tenants, tenant) else q.tenants)
  }

  // ---- What the counters count ----

  ghost function WithKey(held: set<Profile>, key: string): set<Profile> {
    set p | p in held && UserKey(p.tenant, p.user) == key
  }

  ghost function OfTenant(held: set<Profile>, tenant: string): set<Profile> {
    set p | p in held && p.tenant == tenant
  }

  ghost function OfUser(held: set<Profile>, tenant: string, user: string): set<Profile> {
    set p | p in held && p.tenant == tenant && p.user == user
  }

  /** The counts of the users, with no zero entry. */
  ghost predicate UsersCount(users: map<string, int>, held: set<Profile>) {
    && (forall k :: Get(users, k) == |WithKey(held, k)|)
    && (forall k :: k in users ==> users[k] > 0)
  }

  /** The counts of the tenants, with no zero entry and none for the empty tenant. */
  ghost predicate TenantsCount(tenants: map<string, int>, held: set<Profile>) {
    && (forall t :: Get(tenants, t) == if t == "" then 0 else |OfTenant(held, t)|)
    && (forall t :: t in tenants ==> tenants[t] > 0)
  }

  /** The counters are exactly the counts over the connections in `held`:
      no entry is missing, and no zero entry remains. */
  ghost predicate Counts(q: Counters, held: set<Profile>) {
    q.active == |held| && UsersCount(q.users, held) && TenantsCount(q.tenants, held)
  }

  /** Every enforced limit holds of the connections in `held`. */
  ghost predicate WithinLimits(limits: Limits, held: set<Profile>) {
    && (limits.maxConnections > 0 ==> |held| <= limits.maxConnections)
    && (limits.maxPerUser > 0 ==> forall t, u | u != "" :: |OfUser(held, t, u)| <= limits.maxPerUser)
    && (limits.maxPerTenant > 0 ==> forall t | t != "" :: |OfTenant(held, t)| <= limits.maxPerTenant)
  }

  lemma SubsetSize<T>(a: set<T>, b: set<T>)
    requires a <= b
    ensures |a| <= |b|
  {
    assert |b| == |a| + |b - a| by { assert b == a + (b - a); }
  }

  lemma KeyClassGrows(held: set<Profile>, p: Profile, k: string)
    requires p !in held
    ensures |WithKey(held + {p}, k)| == |WithKey(held, k)| + if k == UserKey(p.tenant, p.user) then 1 else 0
  {
    assert WithKey(held + {p}, k) == WithKey(held, k) + if k == UserKey(p.tenant, p.user) then {p} else {};
  }

  lemma TenantClassGrows(held: set<Profile>, p: Profile, t: string)
    requires p !in held
    ensures |OfTenant(held + {p}, t)| == |OfTenant(held, t)| + if t == p.tenant then 1 else 0
  {
    assert OfTenant(held + {p}, t) == OfTenant(held, t) + if t == p.tenant then {p} else {};
  }

  lemma UserClassGrows(held: set<Profile>, p: Profile, t: string, u: string)
    requires p !in held
    ensures |OfUser(held + {p}, t, u)| == |OfUser(held, t, u)| + if t == p.tenant && u == p.user then 1 else 0
  {
    assert OfUser(held + {p}, t, u) == OfUser(held, t, u) + if t == p.tenant && u == p.user then {p} else {};
  }

  /** How the counted classes change when one connection joins. */
  lemma ClassesGrow(held: set<Profile>, p: Profile)
    requires p !in held
    ensures forall k :: |WithKey(held + {p}, k)| == |WithKey(held, k)| + if k == UserKey(p.tenant, p.user) then 1 else 0
    ensures forall t :: |OfTenant(held + {p}, t)| == |OfTenant(held, t)| + if t == p.tenant then 1 else 0
    ensures forall t, u :: |OfUser(held + {p}, t, u)| == |OfUser(held, t, u)| + if t == p.tenant && u == p.user then 1 else 0
  {
    forall k { KeyClassGrows(held, p, k); }
    forall t { TenantClassGrows(held, p, t); }
    forall t, u { UserClassGrows(held, p, t, u); }
  }

  lemma ZeroCounts()
    ensures Counts(ZERO, {})
  {
  }

  /** Which limits are reached, said of the connections that are held. */
  ghost predicate Full(limits: Limits, held: set<Profile>) {
    limits.maxConnections > 0 && |held| >= limits.maxConnections
  }

  ghost predicate UserFull(limits: Limits, held: set<Profile>, tenant: string, user: string) {
    limits.maxPerUser > 0 && user != "" && |WithKey(held, UserKey(tenant, user))| >= limits.maxPerUser
  }

  ghost predicate TenantFull(limits: Limits, held: set<Profile>, tenant: string) {
    limits.maxPerTenant > 0 && tenant != "" && |OfTenant(held, tenant)| >= limits.maxPerTenant
  }

  /** The check names the first limit that is reached: all connections before those of the user
      before those of the tenant. */
  lemma CheckReason(q: Counters, limits: Limits, held: set<Profile>, tenant: string, user: string)
    requires Counts(q, held)
    ensures var e := Check(q, limits, tenant, user);
      && (e == Some(MaxConnectionsReached) <==> Full(limits, held))
      && (e == Some(MaxPerUserReached) <==> !Full(limits, held) && UserFull(limits, held, tenant, user))
      && (e == Some(MaxPerTenantReached) <==>
            !Full(limits, held) && !UserFull(limits, held, tenant, user) && TenantFull(limits, held, tenant))
  {
    assert Get(q.users, UserKey(tenant, user)) == |WithKey(held, UserKey(tenant, user))|;
    assert tenant != "" ==> Get(q.tenants, tenant) == |OfTenant(held, tenant)|;
  }

  lemma UsersAcquire(users: map<string, int>, held: set<Profile>, p: Profile)
    requires UsersCount(users, held) && p !in held
    ensures UsersCount(Increment(users, UserKey(p.tenant, p.user)), held + {p})
  {
    var after := Increment(users, UserKey(p.tenant, p.user));
    forall k ensures Get(after, k) == |WithKey(held + {p}, k)| {
      KeyClassGrows(held, p, k);
      assert Get(users, k) == |WithKey(held, k)|;
    }
  }

  lemma TenantsAcquire(tenants: map<string, int>, held: set<Profile>, p: Profile)
    requires TenantsCount(tenants, held) && p !in held
    ensures TenantsCount(if p.tenant != "" then Increment(tenants, p.tenant) else tenants, held + {p})
  {
    var after := if p.tenant != "" then Increment(tenants, p.tenant) else tenants;
    forall t ensures Get(after, t) == if t == "" then 0 else |OfTenant(held + {p}, t)| {
      TenantClassGrows(held, p, t);
      assert Get(tenants, t) == if t == "" then 0 else |OfTenant(held, t)|;
    }
  }

  lemma AcquireCounts(q: Counters, held: set<Profile>, p: Profile)
    requires Counts(q, held) && p !in held
    ensures Counts(Acquired(q, p.tenant, p.user), held + {p})
  {
    UsersAcquire(q.users, held, p);
    TenantsAcquire(q.tenants, held, p);
  }

  lemma UsersRelease(users: map<string, int>, held: set<Profile>, p: Profile)
    requires UsersCount(users, held + {p}) && p !in held
    ensures Get(users, UserKey(p.tenant, p.user)) > 0
    ensures UsersCount(Decrement(users, UserKey(p.tenant, p.user)), held)
  {
    var after := Decrement(users, UserKey(p.tenant, p.user));
    forall k ensures Get(after, k) == |WithKey(held, k)| && (k == UserKey(p.tenant, p.user) ==> Get(users, k) > 0) {
      KeyClassGrows(held, p, k);
      assert Get(users, k) == |WithKey(held + {p}, k)|;
    }
  }

  lemma TenantsRelease(tenants: map<string, int>, held: set<Profile>, p: Profile)
    requires TenantsCount(tenants, held + {p}) && p !in held
    ensures p.tenant != "" ==> Get(tenants, p.tenant) > 0
    ensures TenantsCount(if p.tenant != "" then Decrement(tenants, p.tenant) else tenants, held)
  {
    var after := if p.tenant != "" then Decrement(tenants, p.tenant) else tenants;
    forall t ensures Get(after, t) == (if t == "" then 0 else |OfTenant(held, t)|) && (t == p.tenant != "" ==> Get(tenants, t) > 0) {
      TenantClassGrows(held, p, t);
      assert Get(tenants, t) == if t == "" then 0 else |OfTenant(held + {p}, t)|;
    }
  }

  /** Releasing a held connection undoes exactly its acquisition: no guard hides a decrement. */
  lemma ReleaseCounts(q: Counters, held: set<Profile>, p: Profile)
    requires Counts(q, held) && p in held
    ensures q.active > 0 && Get(q.users, UserKey(p.tenant, p.user)) > 0
    ensures p.tenant != "" ==> Get(q.tenants, p.tenant) > 0
    ensures Counts(Released(q, p.tenant, p.user), held - {p})
  {
    assert held - {p} + {p} == held;
    UsersRelease(q.users, held - {p}, p);
    TenantsRelease(q.tenants, held - {p}, p);
  }

  /** The check admits a connection only where one more keeps every limit, although two
      users may share one user key: sharing can only refuse more. */
  lemma AdmissionKeepsLimits(q: Counters, limits: Limits, held: set<Profile>, p: Profile)
    requires Counts(q, held) && WithinLimits(limits, held) && p !in held
    requires Check(q, limits, p.tenant, p.user).None?
    ensures WithinLimits(limits, held + {p})
  {
    ClassesGrow(held, p);
    SubsetSize(OfUser(held, p.tenant, p.user), WithKey(held, UserKey(p.tenant, p.user)));
  }

  lemma ReleaseKeepsLimits(limits: Limits, held: set<Profile>, p: Profile)
    requires WithinLimits(limits, held) && p in held
    ensures WithinLimits(limits, held - {p})
  {
    ClassesGrow(held - {p}, p);
    assert held - {p} + {p} == held;
  }

  /** A shared user key can refuse a user who holds nothing: tenant "a:b" user "c" and
      tenant "a" user "b:c" are counted together. */
  lemma SharedUserKeyRefuses(limits: Limits)
    requires limits.maxConnections <= 0 && limits.maxPerUser == 1
    ensures var q := Acquired(ZERO, "a:b", "c");
            Counts(q, {Profile("1", "a:b", "c", [])}) && Check(q, limits, "a", "b:c") == Some(MaxPerUserReached)
  {
    ZeroCounts();
    AcquireCounts(ZERO, {}, Profile("1", "a:b", "c", []));
    assert {} + {Profile("1", "a:b", "c", [])} == {Profile("1", "a:b", "c", [])};
    assert UserKey("a:b", "c") == "a:b:c" == UserKey("a", "b:c");
  }

  /** A user shares its key with no other user exactly when neither its tenant nor its own
      name contains a colon. */
  lemma UserKeyOwnExactlyWhenColonFree(t: string, u: string)
    ensures (forall t', u' :: UserKey(t', u') == UserKey(t, u) ==> t' == t && u' == u) <==> ':' !in t && ':' !in u
  {
    if ':' !in t && ':' !in u {
      forall t', u' | UserKey(t', u') == UserKey(t, u) ensures t' == t && u' == u {
        OneColon(t, u, t', u');
      }
    } else {
      var t', u' := Namesake(t, u);
    }
  }

  lemma OneColon(t: string, u: string, t': string, u': string)
    requires ':' !in t && ':' !in u && UserKey(t', u') == UserKey(t, u)
    ensures t' == t && u' == u
  {
    assert multiset(UserKey(t, u))[':'] == multiset(t)[':'] + 1 + multiset(u)[':'];
    assert multiset(UserKey(t', u'))[':'] == multiset(t')[':'] + 1 + multiset(u')[':'];
    SplitAtFirst(t, u, t', u', ':');
  }

  /** A colon moves from one part to the other: another user with the same key. */
  lemma Namesake(t: string, u: string) returns (t': string, u': string)
    requires ':' in t || ':' in u
    ensures UserKey(t', u') == UserKey(t, u) && t' != t
  {
    if ':' in t {
      var n :| 0 <= n < |t| && t[n] == ':';
      t', u' := t[..n], t[n + 1..] + ":" + u;
      assert t == t[..n] + ":" + t[n + 1..];
    } else {
      var n :| 0 <= n < |u| && u[n] == ':';
      t', u' := t + ":" + u[..n], u[n + 1..];
      assert u == u[..n] + ":" + u[n + 1..];
    }
  }

  /** For a user without namesakes the check is exact: it refuses only what would break a
      limit. */
  lemma CheckExact(q: Counters, limits: Limits, held: set<Profile>, p: Profile)
    requires Counts(q, held) && WithinLimits(limits, held) && p !in held
    requires ':' !in p.tenant && ':' !in p.user
    ensures Check(q, limits, p.tenant, p.user).None? <==> WithinLimits(limits, held + {p})
  {
    if Check(q, limits, p.tenant, p.user).None? {
      AdmissionKeepsLimits(q, limits, held, p);
    } else {
      ClassesGrow(held, p);
      forall d | d in WithKey(held, UserKey(p.tenant, p.user)) ensures d in OfUser(held, p.tenant, p.user) {
        OneColon(p.tenant, p.user, d.tenant, d.user);
      }
      assert WithKey(held, UserKey(p.tenant, p.user)) == OfUser(held, p.tenant, p.user);
    }
  }

  /** The tracker; every method is one critical section of its mutex. */
  class QuotaTracker {
    const limits: Limits
    var activeConns: int
    var userCounts: map<string, int>
    var tenantCounts: map<string, int>

    function View(): Counters
      reads this
    {
      Counters(activeConns, userCounts, tenantCounts)
    }

    constructor (limits: Limits)
      ensures this.limits == limits && View() == ZERO
    {
      this.limits := limits;
      activeConns := 0;
      userCounts := map[];
      tenantCounts := map[];
    }

    method CheckUnderLock(tenantID: string, userID: string) returns (err: Option<QuotaError>)
      ensures err == Check(View(), limits, tenantID, userID)
    {
      if limits.maxConnections > 0 && activeConns >= limits.maxConnections {
        return Some(MaxConnectionsReached);
      }
      if limits.maxPerUser > 0 && userID != "" {
        var userKey := UserKey(tenantID, userID);
        if Get(userCounts, userKey) >= limits.maxPerUser {
          return Some(MaxPerUserReached);
        }
      }
      if limits.maxPerTenant > 0 && tenantID != "" {
        if Get(tenantCounts, tenantID) >= limits.maxPerTenant {
          return Some(MaxPerTenantReached);
        }
      }
      return None;
    }

    method Acquire(tenantID: string, userID: string) returns (err: Option<QuotaError>)
      modifies this
      ensures err == Check(old(View()), limits, tenantID, userID)
      ensures View() == if err.None? then Acquired(old(View()), tenantID, userID) else old(View())
    {
      err := CheckUnderLock(tenantID, userID);
      if err.Some? {
        return;
      }
      activeConns := activeConns + 1;
      var userKey := UserKey(tenantID, userID);
      userCounts := userCounts[userKey := Get(userCounts, userKey) + 1];
      if tenantID != "" {
        tenantCounts := tenantCounts[tenantID := Get(tenantCounts, tenantID) + 1];
      }
    }

    method Release(tenantID: string, userID: string)
      modifies this
      ensures View() == Released(old(View()), tenantID, userID)
    {
      if activeConns > 0 {
        activeConns := activeConns - 1;
      }
      var userKey := UserKey(tenantID, userID);
      if Get(userCounts, userKey) > 0 {
        userCounts := Lowered(userCounts, userKey);
      }
      if tenantID != "" && Get(tenantCounts, tenantID) > 0 {
        tenantCounts := Lowered(tenantCounts, tenantID);
      }
    }

    /** One less for a key; an entry that reaches zero is deleted. */
    static method Lowered(m: map<string, int>, k: string) returns (r: map<string, int>)
      requires Get(m, k) > 0
      ensures r == Decrement(m, k)
    {
      r := m[k := Get(m, k) - 1];
      if Get(r, k) == 0 {
        r := r - {k};
      }
    }
  }
}
