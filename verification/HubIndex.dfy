/** The shards of a hub as values, and the flat relation {(key, client)} that they stand for. */
module HubIndex {
  import opened Options
  import opened Hashing
  import opened Clients
  import S = Shards

  type Relation = set<(string, Client)>

  type Views = seq<S.Shard<Client>>

  ghost predicate Partitioned(count: int) {
    0 < count < TWO_TO_THE_32
  }

  /** The relation of the registered clients. */
  ghost function Flat(live: set<Client>): Relation {
    set c, k | c in live && k in c.profile.topics :: (k, c)
  }

  ghost predicate UniqueIds(live: set<Client>) {
    forall c, d :: c in live && d in live && c.profile.id == d.profile.id ==> c == d
  }

  /** The index holds exactly the relation, each key in its own shard. */
  ghost predicate Index(hash: HashFunction, views: Views, rel: Relation)
    requires Partitioned(|views|)
  {
    && (forall i, k, id :: 0 <= i < |views| && S.Entry(views[i], k, id).Some? ==>
          && i == ShardIndex(hash, k, |views|)
          && S.Entry(views[i], k, id).value.profile.id == id
          && (k, S.Entry(views[i], k, id).value) in rel)
    && (forall p :: p in rel ==> S.Entry(views[ShardIndex(hash, p.0, |views|)], p.0, p.1.profile.id) == Some(p.1))
  }

  /** Every second table is the union of the inner maps of its shard. */
  ghost predicate AllTidy(views: Views) {
    forall i :: 0 <= i < |views| ==> S.Tidy(views[i])
  }

  /** As before, except that entries of the client `id` may be missing from the tables. */
  ghost predicate TidyBut(s: S.Shard<Client>, id: string) {
    && S.Rooted(s)
    && (forall k, i :: i != id && S.Entry(s, k, i).Some? ==> S.Listing(s, i) == S.Entry(s, k, i))
  }

  ghost predicate AllTidyBut(views: Views, id: string) {
    forall i :: 0 <= i < |views| ==> TidyBut(views[i], id)
  }

  lemma InsertIndex(hash: HashFunction, views: Views, rel: Relation, key: string, c: Client)
    requires Partitioned(|views|) && Index(hash, views, rel)
    requires forall p :: p in rel && p.1.profile.id == c.profile.id ==> p.1 == c
    ensures var i := ShardIndex(hash, key, |views|);
      Index(hash, views[i := S.Insert(views[i], key, c.profile.id, c)], rel + {(key, c)})
  {
    S.InsertMeans(views[ShardIndex(hash, key, |views|)], key, c.profile.id, c);
  }

  lemma InsertTidy(s: S.Shard<Client>, key: string, c: Client)
    requires S.Tidy(s) && forall k :: S.Entry(s, k, c.profile.id).Some? ==> S.Entry(s, k, c.profile.id) == Some(c)
    ensures S.Tidy(S.Insert(s, key, c.profile.id, c))
  {
    S.InsertMeans(s, key, c.profile.id, c);
  }

  lemma RemoveIndex(hash: HashFunction, views: Views, rel: Relation, key: string, c: Client)
    requires Partitioned(|views|) && Index(hash, views, rel)
    requires forall p :: p in rel && p.1.profile.id == c.profile.id ==> p.1 == c
    ensures var i := ShardIndex(hash, key, |views|);
      Index(hash, views[i := S.Remove(views[i], key, c.profile.id)], rel - {(key, c)})
  {
    S.RemoveMeans(views[ShardIndex(hash, key, |views|)], key, c.profile.id);
  }

  lemma RemoveTidy(s: S.Shard<Client>, key: string, id: string)
    requires TidyBut(s, id)
    ensures TidyBut(S.Remove(s, key, id), id)
  {
    S.RemoveMeans(s, key, id);
  }

  /** Once the client has no entry left, the tables are whole again. */
  lemma TidyAgain(hash: HashFunction, views: Views, rel: Relation, id: string)
    requires Partitioned(|views|) && Index(hash, views, rel) && AllTidyBut(views, id)
    requires forall p :: p in rel ==> p.1.profile.id != id
    ensures AllTidy(views)
  {
  }

  /** A sweep of shard `i` removes the entries of the listed ids there, and nothing else. */
  lemma SweepIndex(hash: HashFunction, views: Views, rel: Relation, i: nat, ids: set<string>)
    requires Partitioned(|views|) && Index(hash, views, rel) && i < |views|
    ensures Index(hash, views[i := S.RemoveAll(views[i], ids)],
                  set p | p in rel && !(ShardIndex(hash, p.0, |views|) == i && p.1.profile.id in ids))
  {
    S.RemoveAllMeans(views[i], ids);
  }

  lemma SweepTidy(s: S.Shard<Client>, ids: set<string>)
    requires S.Tidy(s)
    ensures S.Tidy(S.RemoveAll(s, ids))
  {
    S.RemoveAllMeans(s, ids);
  }

  /** In a tidy index, shard `i` lists exactly the clients that have a key there. */
  lemma ListedMeans(hash: HashFunction, views: Views, rel: Relation, i: nat, c: Client)
    requires Partitioned(|views|) && Index(hash, views, rel) && AllTidy(views) && i < |views|
    ensures S.Listing(views[i], c.profile.id) == Some(c) <==>
            exists p :: p in rel && p.1 == c && ShardIndex(hash, p.0, |views|) == i
  {
  }

  /** The clients of a key in the relation. */
  ghost function Subscribers(rel: Relation, key: string): set<Client> {
    set p | p in rel && p.0 == key :: p.1
  }

  /** The shard of a key holds exactly the key's clients. */
  lemma SubscribersMean(hash: HashFunction, views: Views, rel: Relation, key: string)
    requires Partitioned(|views|) && Index(hash, views, rel)
    ensures var sh := views[ShardIndex(hash, key, |views|)];
      && (forall c: Client :: c in Subscribers(rel, key) <==> S.Entry(sh, key, c.profile.id) == Some(c))
      && (Subscribers(rel, key) != {} <==> exists id :: S.Entry(sh, key, id).Some?)
  {
  }

  /** The shards below `i` that host a key of the client. */
  ghost function Hosts(hash: HashFunction, count: int, c: Client, i: nat): set<nat>
    requires Partitioned(count)
  {
    set k | k in c.profile.topics && ShardIndex(hash, k, count) < i :: ShardIndex(hash, k, count)
  }

  /** Shard `i` hosts a key of the client. */
  ghost predicate HostedAt(hash: HashFunction, count: int, c: Client, i: nat)
    requires Partitioned(count)
  {
    exists k :: k in c.profile.topics && ShardIndex(hash, k, count) == i
  }

  lemma HostsGrow(hash: HashFunction, count: int, c: Client, i: nat)
    requires Partitioned(count)
    ensures |Hosts(hash, count, c, i + 1)| == |Hosts(hash, count, c, i)| + if HostedAt(hash, count, c, i) then 1 else 0
  {
    assert Hosts(hash, count, c, i + 1) == Hosts(hash, count, c, i) + if HostedAt(hash, count, c, i) then {i} else {};
  }

  /** A client with a key is hosted somewhere. */
  lemma HostedSomewhere(hash: HashFunction, count: nat, c: Client)
    requires Partitioned(count) && c.profile.topics != []
    ensures |Hosts(hash, count, c, count)| >= 1
  {
    assert ShardIndex(hash, c.profile.topics[0], count) in Hosts(hash, count, c, count);
  }
}
