/** One shard of the hub; every method is one critical section of its lock. */
module HubShard {
  import opened Sequences
  import opened Options
  import opened Clients
  import S = Shards

  ghost predicate KeyedById(m: map<string, Client>) {
    forall id :: id in m ==> m[id].profile.id == id
  }

  ghost predicate Owned(c: Client, tenant: string, user: string) {
    c.profile.tenant == tenant && c.profile.user == user
  }

  /** Ranging over a map of clients: each of its values once, in some order. */
  method RangeOver(m: map<string, Client>) returns (r: seq<Client>)
    requires KeyedById(m)
    ensures Distinct(r) && |r| == |m|
    ensures forall c :: c in r <==> c.profile.id in m && m[c.profile.id] == c
  {
    r := [];
    var pending := m.Keys;
    while pending != {}
      invariant pending <= m.Keys && |r| + |pending| == |m|
      invariant Distinct(r)
      invariant forall c :: c in r <==> c.profile.id in m && c.profile.id !in pending && m[c.profile.id] == c
    {
      var id :| id in pending;
      r := r + [m[id]];
      pending := pending - {id};
    }
  }

  /** The keys of the clients of a user. */
  ghost function IdsOf(m: map<string, Client>, tenant: string, user: string): set<string> {
    set id | id in m && Owned(m[id], tenant, user)
  }

  lemma RemoveOneMoreAt(s: S.Shard<Client>, ids: set<string>, id: string, k: string)
    ensures var a, b := S.RemoveAll(S.RemoveAll(s, ids), {id}), S.RemoveAll(s, ids + {id});
      (k in a.topics <==> k in b.topics) && (k in a.topics ==> a.topics[k] == b.topics[k])
  {
    if k in s.topics {
      assert s.topics[k] - ids - {id} == s.topics[k] - (ids + {id});
    }
  }

  /** Removing several clients from every key, one client after the other. */
  lemma RemoveOneMore(s: S.Shard<Client>, ids: set<string>, id: string)
    ensures S.RemoveAll(S.RemoveAll(s, ids), {id}).topics == S.RemoveAll(s, ids + {id}).topics
  {
    forall k { RemoveOneMoreAt(s, ids, id, k); }
  }

  lemma RemoveNone(s: S.Shard<Client>)
    requires S.NoEmptyKey(s)
    ensures S.RemoveAll(s, {}).topics == s.topics
  {
    assert forall k :: k in s.topics ==> s.topics[k] - {} == s.topics[k];
  }

  class Shard {
    var topics: map<string, map<string, Client>>
    var clients: map<string, Client>

    ghost function View(): S.Shard<Client>
      reads this
    {
      S.Shard(topics, clients)
    }

    /** Everything is keyed by its own id, and no inner map is empty. */
    ghost predicate Valid()
      reads this
    {
      && KeyedById(clients)
      && (forall k :: k in topics ==> KeyedById(topics[k]) && topics[k] != map[])
    }

    constructor ()
      ensures Valid() && View() == S.Empty()
    {
      topics := map[];
      clients := map[];
    }

    method Register(routingKey: string, client: Client)
      requires Valid()
      modifies this
      ensures Valid() && View() == S.Insert(old(View()), routingKey, client.profile.id, client)
    {
      var clientMap: map<string, Client> := if routingKey in topics then topics[routingKey] else map[];
      clientMap := clientMap[client.profile.id := client];
      assert client.profile.id in clientMap;
      topics := topics[routingKey := clientMap];
      clients := clients[client.profile.id := client];
    }

    method Unregister(routingKey: string, clientID: string)
      requires Valid()
      modifies this
      ensures Valid() && View() == S.Remove(old(View()), routingKey, clientID)
    {
      if routingKey in topics {
        var clientMap := topics[routingKey] - {clientID};
        if clientMap == map[] {
          topics := topics - {routingKey};
        } else {
          topics := topics[routingKey := clientMap];
        }
      }
      clients := clients - {clientID};
    }

    method HasSubscribers(routingKey: string) returns (r: bool)
      requires Valid()
      ensures r <==> exists id :: S.Entry(View(), routingKey, id).Some?
    {
      r := routingKey in topics && topics[routingKey] != map[];
      if r {
        var id :| id in topics[routingKey];
        assert S.Entry(View(), routingKey, id).Some?;
      }
    }

    /** A snapshot of the subscribers of a key, each of them once. */
    method GetRecipients(routingKey: string) returns (r: seq<Client>)
      requires Valid()
      ensures Distinct(r)
      ensures forall c :: c in r <==> S.Entry(View(), routingKey, c.profile.id) == Some(c)
    {
      if routingKey !in topics || topics[routingKey] == map[] {
        return [];
      }
      r := RangeOver(topics[routingKey]);
    }

    /** A snapshot of the second table, each client once. */
    method GetAllClients() returns (r: seq<Client>)
      requires Valid()
      ensures Distinct(r)
      ensures forall c :: c in r <==> S.Listing(View(), c.profile.id) == Some(c)
    {
      r := RangeOver(clients);
    }

    /** Deletes one client from every key, and each key that loses its last client. */
    method RemoveEverywhere(clientID: string)
      modifies this`topics
      ensures topics == S.RemoveAll(old(View()), {clientID}).topics
    {
      var before := topics;
      var pending := topics.Keys;
      while pending != {}
        invariant pending <= before.Keys
        invariant forall k :: k in topics ==> k in before
        invariant forall k :: k in pending ==> k in topics && topics[k] == before[k]
        invariant forall k :: k in before && k !in pending ==>
          if before[k] - {clientID} == map[] then k !in topics else k in topics && topics[k] == before[k] - {clientID}
      {
        var rKey :| rKey in pending;
        var clientMap := topics[rKey] - {clientID};
        if clientMap == map[] {
          topics := topics - {rKey};
        } else {
          topics := topics[rKey := clientMap];
        }
        pending := pending - {rKey};
      }
    }

    /** Detaches every client of the user from the whole shard and returns them. */
    method InvalidateUser(tenantID: string, userID: string) returns (matched: seq<Client>)
      requires Valid()
      modifies this
      ensures Valid() && View() == S.RemoveAll(old(View()), IdsOf(old(clients), tenantID, userID))
      ensures Distinct(matched)
      ensures forall c :: c in matched <==> S.Listing(old(View()), c.profile.id) == Some(c) && Owned(c, tenantID, userID)
    {
      matched := DetachFromTable(tenantID, userID);
      ghost var before := View();
      ghost var ids := {};
      RemoveNone(before);
      var i := 0;
      while i < |matched|
        invariant 0 <= i <= |matched|
        invariant ids == (set j | 0 <= j < i :: matched[j].profile.id)
        invariant topics == S.RemoveAll(before, ids).topics && clients == before.clients
      {
        RemoveEverywhere(matched[i].profile.id);
        RemoveOneMore(before, ids, matched[i].profile.id);
        assert S.RemoveAll(S.Shard(S.RemoveAll(before, ids).topics, clients), {matched[i].profile.id}).topics
            == S.RemoveAll(S.RemoveAll(before, ids), {matched[i].profile.id}).topics;
        ids := ids + {matched[i].profile.id};
        i := i + 1;
      }
      assert ids == IdsOf(old(clients), tenantID, userID);
    }

    /** The first loop of InvalidateUser: it deletes the user's clients from the table. */
    method DetachFromTable(tenantID: string, userID: string) returns (matched: seq<Client>)
      requires Valid()
      modifies this`clients
      ensures clients == old(clients) - IdsOf(old(clients), tenantID, userID)
      ensures Distinct(matched)
      ensures forall c :: c in matched <==> S.Listing(old(View()), c.profile.id) == Some(c) && Owned(c, tenantID, userID)
    {
      matched := [];
      var pending := clients.Keys;
      while pending != {}
        invariant pending <= clients.Keys
        invariant forall id :: id in clients ==> id in old(clients) && clients[id] == old(clients)[id]
        invariant forall id :: id in old(clients) ==> (id in clients <==> id in pending || !Owned(old(clients)[id], tenantID, userID))
        invariant Distinct(matched)
        invariant forall c :: c in matched <==>
          c.profile.id in old(clients) && c.profile.id !in pending && old(clients)[c.profile.id] == c && Owned(c, tenantID, userID)
      {
        var id :| id in pending;
        var c := clients[id];
        if c.profile.tenant == tenantID && c.profile.user == userID {
          matched := matched + [c];
          clients := clients - {id};
        }
        pending := pending - {id};
      }
    }
  }
}
