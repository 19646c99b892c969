/**
  The two models of the database operations agree: when nothing comes in between, the single calls of an operation
  (DiscoRace) leave a service with what the method of its database object leaves (DiscoServices).
 */
module DiscoRefines {
  import opened DiscoRace
  import DB = DiscoServices

  /** A service's database object in a world of several services. */
  function Seen(w: World, s: Srv): DB.Db
    requires s in w.services
  {
    DB.Db(w.values, set e | e in w.clients :: (e.0, e.1.id), w.services[s].subs, w.services[s].queue)
  }

  lemma SameUnder(w: World, s: Srv, k: Key)
    requires s in w.services
    ensures DB.Under(Seen(w, s).values, k) == Values(w, k)
    ensures DB.Under(Seen(w, s).clients, k) == set c | c in Enrolled(w, k) :: c.id
  {
    var ids := set c | c in Enrolled(w, k) :: c.id;
    forall id ensures id in DB.Under(Seen(w, s).clients, k) <==> id in ids {
      DB.UnderHolds(Seen(w, s).clients, k);
      if id in ids {
        var c :| c in Enrolled(w, k) && c.id == id;
        assert (k, c) in w.clients;
      }
      if (k, id) in Seen(w, s).clients {
        var e :| e in w.clients && (e.0, e.1.id) == (k, id);
        assert e.1 in Enrolled(w, k);
      }
    }
  }

  lemma StoreIsInsert(w: World, s: Srv, k: Key, v: Val)
    requires s in w.services
    ensures s in Store(w, k, v).services && Seen(Store(w, k, v), s) == DB.Inserted(Seen(w, s), k, v)
  {
  }

  /** The calls of insert: the database object is as after Insert, and the clients told are those it returns. */
  lemma InsertRefines(w: World, s: Srv, k: Key, v: Val)
    requires s in w.services && w.services[s].op.Idle?
    ensures var u := Steps(At(w, s, InsExists(k, v)), s, 5);
            && Seen(u, s) == DB.Inserted(Seen(w, s), k, v)
            && forall c: Client :: c.home == s && c in w.up && (c, k, v) !in w.told ==>
                 ((c, k, v) in u.told <==> (k, v) !in w.values && (k, c) in w.clients)
    ensures var u := Steps(At(w, s, InsExists(k, v)), s, 5);
            forall ids: seq<string>, c: Client ::
              DB.ToTell(ids, Seen(w, s), (k, v)) && c.home == s && c in w.up && (c, k, v) !in w.told && Unique(w, k, c) ==>
                ((c, k, v) in u.told <==> c.id in ids)
  {
    hide Steps;
    InsertAlone(w, s, k, v);
    StoreIsInsert(w, s, k, v);
    EnrolledHold(w, k);
    if (k, v) !in w.values { ToldOnce(Store(w, k, v), s, k, v, Enrolled(w, k)); }
    hide Store, Tell, Enrolled;
    StoreTold(w, s, k, v);
    forall c: Client | Unique(w, k, c) ensures (k, c.id) in Seen(w, s).clients <==> (k, c) in w.clients { IdIsSeen(w, s, k, c); }
  }

  /** No other client on the key has the id. */
  ghost predicate Unique(w: World, k: Key, c: Client) {
    forall d: Client :: (k, d) in w.clients && d.id == c.id ==> d == c
  }

  lemma IdIsSeen(w: World, s: Srv, k: Key, c: Client)
    requires s in w.services && Unique(w, k, c)
    ensures (k, c.id) in Seen(w, s).clients <==> (k, c) in w.clients
  {
    if (k, c.id) in Seen(w, s).clients { var e :| e in w.clients && (e.0, e.1.id) == (k, c.id); }
  }

  lemma ToldOnce(w: World, s: Srv, k: Key, v: Val, cs: set<Client>)
    requires s in w.services
    ensures s in Tell(w, s, k, {v}, cs).services && Seen(Tell(w, s, k, {v}, cs), s) == Seen(w, s)
    ensures forall c: Client :: (c, k, v) in Tell(w, s, k, {v}, cs).told <==>
              (c, k, v) in w.told || (c in cs && c.home == s && c in w.up)
  {
  }

  lemma StoreTold(w: World, s: Srv, k: Key, v: Val)
    ensures Store(w, k, v).up == w.up && Store(w, k, v).told <= w.told
  {
  }

  /** The calls of fetch: the database object is as after Fetch, and the client is told what Fetch returns. */
  lemma FetchRefines(w: World, s: Srv, k: Key, c: Client)
    requires s in w.services && w.services[s].op.Idle?
    ensures var u := Steps(At(w, s, FetSub(k, c)), s, 5);
            && Seen(u, s) == DB.Fetched(Seen(w, s), k, c.id)
            && forall v :: (c, k, v) !in w.told ==> ((c, k, v) in u.told <==> v in DB.Under(Seen(w, s).values, k))
  {
    hide Steps;
    FetchAlone(w, s, k, c);
    SameUnder(w, s, k);
    IdsMore(w.clients, (k, c));
    hide DB.Under, Values;
  }

  lemma IdsMore(clients: set<(Key, Client)>, x: (Key, Client))
    ensures (set e | e in clients + {x} :: (e.0, e.1.id)) == (set e | e in clients :: (e.0, e.1.id)) + {(x.0, x.1.id)}
  {
  }

  lemma DropSeen(w: World, s: Srv, k: Key, v: Val)
    requires s in w.services
    ensures s in Drop(w, k, v).services
    ensures Seen(Drop(w, k, v), s) ==
            if (k, v) in w.values then DB.Reported(Seen(w, s).(values := w.values - {(k, v)}), k) else Seen(w, s)
  {
  }

  /** The calls of remove: the database object is as after Remove. */
  lemma RemoveRefines(w: World, s: Srv, k: Key, v: Val)
    requires s in w.services && w.services[s].op.Idle?
    ensures Seen(Steps(At(w, s, RemDrop(k, v)), s, 3), s) == DB.Dropped(Seen(w, s), k, v)
  {
    hide Steps, Drop, Values, DB.Under, DB.Reported;
    RemoveAlone(w, s, k, v);
    DropSeen(w, s, k, v);
    SameUnder(Drop(w, k, v), s, k);
  }

  /** The call of detach: the database object is as after Detach, when the client's id is its own. */
  lemma DetachRefines(w: World, s: Srv, k: Key, c: Client)
    requires s in w.services && w.services[s].op.Idle?
    requires Unique(w, k, c)
    ensures Seen(Steps(At(w, s, DetDrop(k, c)), s, 1), s) == Seen(w, s).(clients := Seen(w, s).clients - {(k, c.id)})
  {
    hide Steps;
    DetachAlone(w, s, k, c);
    var more, less := set e | e in w.clients :: (e.0, e.1.id), set e | e in w.clients - {(k, c)} :: (e.0, e.1.id);
    forall x ensures x in less <==> x in more && x != (k, c.id) {
      if x in more && x != (k, c.id) {
        var e :| e in w.clients && (e.0, e.1.id) == x;
        assert e in w.clients - {(k, c)};
      }
    }
  }
}
