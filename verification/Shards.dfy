/** One shard of the hub as a value: the two-level index and the second client table,
    generic in what stands for a client. */
module Shards {
  import opened Options

  datatype Shard<C> = Shard(topics: map<string, map<string, C>>, clients: map<string, C>)

  function Empty<C>(): Shard<C> {
    Shard(map[], map[])
  }

  function Insert<C>(s: Shard<C>, key: string, id: string, c: C): Shard<C> {
    var clientMap := if key in s.topics then s.topics[key] else map[];
    Shard(s.topics[key := clientMap[id := c]], s.clients[id := c])
  }

  function Remove<C>(s: Shard<C>, key: string, id: string): Shard<C> {
    var topics :=
      if key in s.topics then
        var clientMap := s.topics[key] - {id};
        if clientMap == map[] then s.topics - {key} else s.topics[key := clientMap]
      else
        s.topics;
    Shard(topics, s.clients - {id})
  }

  /** Removal of several clients from every key of the shard. */
  function RemoveAll<C>(s: Shard<C>, ids: set<string>): Shard<C> {
    Shard(map k | k in s.topics && s.topics[k] - ids != map[] :: s.topics[k] - ids, s.clients - ids)
  }

  // ---- Meaning ----

  /** The client that the index holds under (key, id). */
  function Entry<C>(s: Shard<C>, key: string, id: string): Option<C> {
    if key in s.topics && id in s.topics[key] then Some(s.topics[key][id]) else None
  }

  /** The client that the second table holds under id. */
  function Listing<C>(s: Shard<C>, id: string): Option<C> {
    if id in s.clients then Some(s.clients[id]) else None
  }

  ghost predicate NoEmptyKey<C>(s: Shard<C>) {
    forall k :: k in s.topics ==> s.topics[k] != map[]
  }

  /** A listed client has an entry under some key. */
  ghost predicate Rooted<C>(s: Shard<C>) {
    forall id :: Listing(s, id).Some? ==> exists k :: Entry(s, k, id) == Listing(s, id)
  }

  /** The second table is the union of the inner maps of the first. */
  ghost predicate Tidy<C>(s: Shard<C>) {
    Rooted(s) && forall k, id :: Entry(s, k, id).Some? ==> Listing(s, id) == Entry(s, k, id)
  }

  lemma InsertMeans<C>(s: Shard<C>, key: string, id: string, c: C)
    ensures var r := Insert(s, key, id, c);
      && (forall k, i :: Entry(r, k, i) == if k == key && i == id then Some(c) else Entry(s, k, i))
      && (forall i :: Listing(r, i) == if i == id then Some(c) else Listing(s, i))
      && (NoEmptyKey(s) ==> NoEmptyKey(r))
      && (Rooted(s) ==> Rooted(r))
  {
    var r := Insert(s, key, id, c);
    assert id in r.topics[key];
    if Rooted(s) {
      forall i | Listing(r, i).Some? ensures exists k :: Entry(r, k, i) == Listing(r, i) {
        if i == id {
          assert Entry(r, key, i) == Listing(r, i);
        } else {
          var k :| Entry(s, k, i) == Listing(s, i);
          assert Entry(r, k, i) == Listing(r, i);
        }
      }
    }
  }

  lemma RemoveMeans<C>(s: Shard<C>, key: string, id: string)
    ensures var r := Remove(s, key, id);
      && (forall k, i :: Entry(r, k, i) == if k == key && i == id then None else Entry(s, k, i))
      && (forall i :: Listing(r, i) == if i == id then None else Listing(s, i))
      && (NoEmptyKey(s) ==> NoEmptyKey(r))
      && (Rooted(s) ==> Rooted(r))
  {
    var r := Remove(s, key, id);
    assert forall k, i :: Entry(r, k, i) == if k == key && i == id then None else Entry(s, k, i) by {
      if key in s.topics {
        var m := s.topics[key] - {id};
        assert forall i :: i in m <==> i in s.topics[key] && i != id;
      }
    }
    if Rooted(s) {
      forall i | Listing(r, i).Some? ensures exists k :: Entry(r, k, i) == Listing(r, i) {
        var k :| Entry(s, k, i) == Listing(s, i);
        assert Entry(r, k, i) == Listing(r, i);
      }
    }
  }

  lemma RemoveAllMeans<C>(s: Shard<C>, ids: set<string>)
    ensures var r := RemoveAll(s, ids);
      && (forall k, i :: Entry(r, k, i) == if i in ids then None else Entry(s, k, i))
      && (forall i :: Listing(r, i) == if i in ids then None else Listing(s, i))
      && NoEmptyKey(r)
      && (Rooted(s) ==> Rooted(r))
  {
    var r := RemoveAll(s, ids);
    forall k, i ensures Entry(r, k, i) == if i in ids then None else Entry(s, k, i) {
      if k in s.topics && i in s.topics[k] && i !in ids {
        assert i in s.topics[k] - ids;
      }
    }
    if Rooted(s) {
      forall i | Listing(r, i).Some? ensures exists k :: Entry(r, k, i) == Listing(r, i) {
        var k :| Entry(s, k, i) == Listing(s, i);
        assert Entry(r, k, i) == Listing(r, i);
      }
    }
  }
}
