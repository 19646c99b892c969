/**
  Several discovery services over one database, interleaving at every single database call
  (src/riaps/discd/dbase_redis.py, src/riaps/discd/discs.py). A consumer is told of every provider:
  it was told, or its service has a notification waiting, or the operation its service is in will tell
  it. That holds as long as its service stays subscribed; delSub breaks it.
 */
module DiscoRace {

  type Srv = nat
  type Key = string
  type Val = string

  /** A client id and the service of the host the client lives on. */
  datatype Client = Client(id: string, home: Srv)

  /** What fetchUpdates returns for one notified key. */
  datatype Note = Note(key: Key, vals: set<Val>, clients: set<Client>)

  /** What a service is about to do next; one constructor per database call. */
  datatype Op =
    | Idle
    // insert
    | InsExists(k: Key, v: Val)
    | InsMembers(k: Key, v: Val)
    | InsAdd(k: Key, v: Val)
    | InsClients(k: Key, v: Val)
    | InsTell(k: Key, v: Val, cs: set<Client>)
    // fetch
    | FetSub(k: Key, c: Client)
    | FetExists(k: Key, c: Client)
    | FetMembers(k: Key, c: Client)
    | FetAdd(k: Key, c: Client, vals: set<Val>)
    | FetReply(k: Key, c: Client, vals: set<Val>)
    // fetchUpdates
    | UpdStart
    | UpdDrain(keys: seq<Key>)
    | UpdKeys(keys: seq<Key>, res: seq<Note>)
    | UpdClients(k: Key, vals: set<Val>, keys: seq<Key>, res: seq<Note>)
    | UpdTell(res: seq<Note>)
    // remove, detach
    | RemDrop(k: Key, v: Val)
    | RemMembers(k: Key)
    | RemUnsub(k: Key)
    | DetDrop(k: Key, c: Client)

  datatype Service = Service(subs: set<Key>, queue: seq<Key>, op: Op)

  /** The database, the services, the clients that are set up, and two histories: who was told of a value since
      it was last stored, and who enrolled on a key and has not lost its service's subscription since. */
  datatype World = World(
    values: set<(Key, Val)>, clients: set<(Key, Client)>, services: map<Srv, Service>, up: set<Client>,
    told: set<(Client, Key, Val)>, covered: set<(Client, Key)>)

  function Values(w: World, k: Key): set<Val> {
    set e | e in w.values && e.0 == k :: e.1
  }

  function Enrolled(w: World, k: Key): set<Client> {
    set e | e in w.clients && e.0 == k :: e.1
  }

  function At(w: World, s: Srv, op: Op): World
    requires s in w.services
  {
    w.(services := w.services[s := w.services[s].(op := op)])
  }

  /** The database notifies every service that subscribed to the key. */
  function Notify(w: World, k: Key): World {
    w.(services := map s | s in w.services ::
         if k in w.services[s].subs then w.services[s].(queue := w.services[s].queue + [k]) else w.services[s])
  }

  /** sadd of a value: a new value notifies, and nobody was told of it yet. */
  function Store(w: World, k: Key, v: Val): World {
    if (k, v) in w.values then w
    else Notify(w.(values := w.values + {(k, v)}, told := set t | t in w.told && !(t.1 == k && t.2 == v)), k)
  }

  /** srem of a value. */
  function Drop(w: World, k: Key, v: Val): World {
    if (k, v) in w.values then Notify(w.(values := w.values - {(k, v)}), k) else w
  }

  /** handleUpdate: only clients of this host that are set up are told. */
  function Tell(w: World, s: Srv, k: Key, vals: set<Val>, cs: set<Client>): World {
    w.(told := w.told + set c, v | c in cs && v in vals && c.home == s && c in w.up :: (c, k, v))
  }

  function TellAll(w: World, s: Srv, res: seq<Note>): World
    decreases |res|
  {
    if res == [] then w else TellAll(Tell(w, s, res[0].key, res[0].vals, res[0].clients), s, res[1..])
  }

  /** The service's next database call, or its next message to clients. */
  function Go(w: World, s: Srv): World
    requires s in w.services
  {
    match w.services[s].op
    case Idle => w
    case InsExists(k, v) => At(w, s, if Values(w, k) != {} then InsMembers(k, v) else InsAdd(k, v))
    case InsMembers(k, v) => At(w, s, if v in Values(w, k) then Idle else InsAdd(k, v))
    case InsAdd(k, v) => Store(At(w, s, InsClients(k, v)), k, v)
    case InsClients(k, v) => At(w, s, InsTell(k, v, Enrolled(w, k)))
    case InsTell(k, v, cs) => Tell(At(w, s, Idle), s, k, {v}, cs)
    case FetSub(k, c) =>
      w.(services := w.services[s := w.services[s].(subs := w.services[s].subs + {k}, op := FetExists(k, c))])
    case FetExists(k, c) => At(w, s, if Values(w, k) != {} then FetMembers(k, c) else FetAdd(k, c, {}))
    case FetMembers(k, c) => At(w, s, FetAdd(k, c, Values(w, k)))
    case FetAdd(k, c, vals) =>
      At(w, s, FetReply(k, c, vals)).(clients := w.clients + {(k, c)},
                                      covered := if c in w.up then w.covered + {(c, k)} else w.covered)
    case FetReply(k, c, vals) => At(w, s, Idle).(told := w.told + set v | v in vals :: (c, k, v))
    case UpdStart => At(w, s, if w.services[s].subs == {} then Idle else UpdDrain([]))
    case UpdDrain(keys) =>
      var q := w.services[s].queue;
      if q == [] then At(w, s, UpdKeys(keys, []))
      else w.(services := w.services[s := w.services[s].(queue := q[1..], op := UpdDrain(keys + [q[0]]))])
    case UpdKeys(keys, res) =>
      if keys == [] then At(w, s, UpdTell(res)) else At(w, s, UpdClients(keys[0], Values(w, keys[0]), keys[1..], res))
    case UpdClients(k, vals, keys, res) => At(w, s, UpdKeys(keys, res + [Note(k, vals, Enrolled(w, k))]))
    case UpdTell(res) => TellAll(At(w, s, Idle), s, res)
    case RemDrop(k, v) => Drop(At(w, s, RemMembers(k)), k, v)
    case RemMembers(k) => At(w, s, if Values(w, k) == {} then RemUnsub(k) else Idle)
    case RemUnsub(k) =>
      w.(services := w.services[s := w.services[s].(subs := w.services[s].subs - {k}, op := Idle)],
      covered := set x | x in w.covered && !(x.1 == k && x.0.home == s))
    case DetDrop(k, c) => At(w, s, Idle).(clients := w.clients - {(k, c)}, covered := w.covered - {(c, k)})
  }

  datatype Act =
    | Begin(s: Srv, op: Op)
    | Step(s: Srv)
    | StopDraining(s: Srv)  // get_message also answers None for a subscription's confirmation
    | SetUp(c: Client)
    | TakeDown(c: Client)

  predicate Enabled(w: World, a: Act) {
    match a
    case Begin(s, op) =>
      && s in w.services && w.services[s].op.Idle?
      && (op.InsExists? || op.FetSub? || op.UpdStart? || op.RemDrop? || op.DetDrop?)
      && (op.FetSub? || op.DetDrop? ==> op.c.home == s)
    case Step(s) => s in w.services
    case StopDraining(s) => s in w.services && w.services[s].op.UpdDrain?
    case SetUp(c) => c.home in w.services && w.services[c.home].op.Idle?
    case TakeDown(c) => c.home in w.services && w.services[c.home].op.Idle?
  }

  function Next(w: World, a: Act): World
    requires Enabled(w, a)
  {
    match a
    case Begin(s, op) => At(w, s, op)
    case Step(s) => Go(w, s)
    case StopDraining(s) => At(w, s, UpdKeys(w.services[s].op.keys, []))
    case SetUp(c) => w.(up := w.up + {c})
    case TakeDown(c) => w.(up := w.up - {c}, covered := set x | x in w.covered && x.0 != c)
  }

  // ---------------------------------------------------------------- no provider is lost

  ghost predicate Noted(res: seq<Note>, c: Client, k: Key, v: Val) {
    exists i :: 0 <= i < |res| && res[i].key == k && v in res[i].vals && c in res[i].clients
  }

  /** The operation in progress will tell the client of the value, or will look at the key again. */
  ghost predicate WillTell(op: Op, c: Client, k: Key, v: Val) {
    match op
    case FetReply(k', c', vals) => k == k' && c == c' && v in vals
    case UpdDrain(keys) => k in keys
    case UpdKeys(keys, res) => k in keys || Noted(res, c, k, v)
    case UpdClients(k', vals, keys, res) => (k == k' && v in vals) || k in keys || Noted(res, c, k, v)
    case UpdTell(res) => Noted(res, c, k, v)
    case _ => false
  }

  ghost predicate Served(w: World, c: Client, k: Key, v: Val)
    requires c.home in w.services
  {
    (c, k, v) in w.told || k in w.services[c.home].queue || WillTell(w.services[c.home].op, c, k, v)
  }

  ghost predicate Covers(w: World, c: Client, k: Key) {
    && c.home in w.services && k in w.services[c.home].subs && (k, c) in w.clients && c in w.up
    && forall v :: (k, v) in w.values ==> Served(w, c, k, v)
  }

  /** A fetch under way: it subscribed, and what it has not read is or will be notified. */
  ghost predicate Sane(w: World, s: Srv)
    requires s in w.services
  {
    var me := w.services[s];
    match me.op
    case FetSub(k, c) => c.home == s
    case FetExists(k, c) => c.home == s && k in me.subs
    case FetMembers(k, c) => c.home == s && k in me.subs
    case FetAdd(k, c, vals) => c.home == s && k in me.subs && forall v :: (k, v) in w.values ==> v in vals || k in me.queue
    case FetReply(k, c, vals) => c.home == s
    case DetDrop(k, c) => c.home == s
    case _ => true
  }

  ghost predicate Inv(w: World) {
    && (forall x :: x in w.covered ==> Covers(w, x.0, x.1))
    && (forall s :: s in w.services ==> Sane(w, s))
  }

  lemma ValuesHold(w: World, k: Key)
    ensures forall v :: v in Values(w, k) <==> (k, v) in w.values
  {
  }

  lemma EnrolledHold(w: World, k: Key)
    ensures forall c :: c in Enrolled(w, k) <==> (k, c) in w.clients
  {
  }

  /** Moving on to another operation keeps everybody served whom the old operation would not have told. */
  lemma AtKeepsInv(w: World, s: Srv, op: Op)
    requires Inv(w) && s in w.services
    requires Sane(At(w, s, op), s)
    requires forall x, v :: x in w.covered && x.0.home == s && (x.1, v) in w.values ==>
               (x.0, x.1, v) in w.told || x.1 in w.services[s].queue || WillTell(op, x.0, x.1, v)
    ensures Inv(At(w, s, op))
  {
  }

  /** Operations that tell nobody can be replaced freely. */
  lemma SilentKeepsInv(w: World, s: Srv, op: Op)
    requires Inv(w) && s in w.services && Sane(At(w, s, op), s)
    requires forall c, k, v :: !WillTell(w.services[s].op, c, k, v)
    ensures Inv(At(w, s, op))
  {
  }

  /** A stored value reaches everybody covered: their services subscribed. */
  lemma StoreKeepsInv(w: World, k: Key, v: Val)
    requires Inv(w)
    ensures Inv(Store(w, k, v))
  {
  }

  lemma DropKeepsInv(w: World, k: Key, v: Val)
    requires Inv(w)
    ensures Inv(Drop(w, k, v))
  {
  }

  /** Messages only add to who was told; clients named in a note that are here and set up are told. */
  lemma {:induction false} TellAllTells(w: World, s: Srv, res: seq<Note>)
    ensures var u := TellAll(w, s, res); u == w.(told := u.told) && w.told <= u.told
    ensures forall c, k, v :: Noted(res, c, k, v) && c.home == s && c in w.up ==> (c, k, v) in TellAll(w, s, res).told
    decreases |res|
  {
    if res != [] {
      var m := Tell(w, s, res[0].key, res[0].vals, res[0].clients);
      TellAllTells(m, s, res[1..]);
      forall c, k, v | Noted(res, c, k, v) && c.home == s && c in w.up ensures (c, k, v) in TellAll(w, s, res).told {
        var i :| 0 <= i < |res| && res[i].key == k && v in res[i].vals && c in res[i].clients;
        if 0 < i { assert res[1..][i - 1] == res[i]; }
      }
    }
  }

  /** A round of messages tells exactly the clients of this host that are set up and named in a note for the value. */
  lemma {:induction false} TellAllIs(w: World, s: Srv, res: seq<Note>, c: Client, k: Key, v: Val)
    ensures (c, k, v) in TellAll(w, s, res).told <==>
            (c, k, v) in w.told || (Noted(res, c, k, v) && c.home == s && c in w.up)
    decreases |res|
  {
    if res != [] {
      var m := Tell(w, s, res[0].key, res[0].vals, res[0].clients);
      TellAllIs(m, s, res[1..], c, k, v);
      NotedFirst(res, c, k, v);
      hide Noted;
    }
  }

  lemma NotedFirst(res: seq<Note>, c: Client, k: Key, v: Val)
    requires res != []
    ensures Noted(res, c, k, v) <==>
            (res[0].key == k && v in res[0].vals && c in res[0].clients) || Noted(res[1..], c, k, v)
  {
    if Noted(res[1..], c, k, v) {
      var i :| 0 <= i < |res[1..]| && res[1..][i].key == k && v in res[1..][i].vals && c in res[1..][i].clients;
      assert res[i + 1] == res[1..][i];
    }
    if i :| 0 <= i < |res| && res[i].key == k && v in res[i].vals && c in res[i].clients {
      if 0 < i { assert res[1..][i - 1] == res[i]; }
    }
  }

  lemma TellKeepsInv(w: World, s: Srv, told: set<(Client, Key, Val)>)
    requires Inv(w) && s in w.services && w.told <= told
    requires forall x, v :: x in w.covered && x.0.home == s && (x.1, v) in w.values ==>
               WillTell(w.services[s].op, x.0, x.1, v) ==> (x.0, x.1, v) in told
    ensures Inv(At(w, s, Idle).(told := told))
  {
  }

  // ---------------------------------------------------------------- fetch

  lemma FetchStepsKeepInv(w: World, s: Srv)
    requires Inv(w) && s in w.services
    requires var op := w.services[s].op; op.FetSub? || op.FetExists? || op.FetMembers?
    ensures Inv(Go(w, s))
  {
  }

  /** Enrolling: what the fetch did not read is already notified. */
  lemma EnrollKeepsInv(w: World, s: Srv)
    requires Inv(w) && s in w.services && w.services[s].op.FetAdd?
    ensures Inv(Go(w, s))
  {
  }

  lemma ReplyKeepsInv(w: World, s: Srv)
    requires Inv(w) && s in w.services && w.services[s].op.FetReply?
    ensures Inv(Go(w, s))
  {
  }

  // ---------------------------------------------------------------- fetchUpdates

  lemma DrainKeepsInv(w: World, s: Srv)
    requires Inv(w) && s in w.services && w.services[s].op.UpdDrain?
    ensures Inv(Go(w, s))
  {
    var me, u := w.services[s], Go(w, s);
    forall x | x in u.covered ensures Covers(u, x.0, x.1) {
      assert Covers(w, x.0, x.1);
      forall y | (x.1, y) in u.values ensures Served(u, x.0, x.1, y) {
        assert Served(w, x.0, x.1, y);
        if me.queue != [] && x.0.home == s && x.1 in me.queue && x.1 !in me.queue[1..] { assert x.1 == me.queue[0]; }
      }
    }
    forall t | t in u.services ensures Sane(u, t) {
      assert Sane(w, t);
    }
  }

  lemma NotedMore(res: seq<Note>, n: Note, c: Client, k: Key, v: Val)
    ensures Noted(res + [n], c, k, v) <==> Noted(res, c, k, v) || (n.key == k && v in n.vals && c in n.clients)
  {
    if Noted(res, c, k, v) {
      var i :| 0 <= i < |res| && res[i].key == k && v in res[i].vals && c in res[i].clients;
      assert (res + [n])[i] == res[i];
    }
    assert (res + [n])[|res|] == n;
  }

  lemma ReadKeepsInv(w: World, s: Srv)
    requires Inv(w) && s in w.services && (w.services[s].op.UpdKeys? || w.services[s].op.UpdClients?)
    ensures Inv(Go(w, s))
  {
    var op, op' := w.services[s].op, Go(w, s).services[s].op;
    if op.UpdKeys? && op.keys != [] { ValuesHold(w, op.keys[0]); }
    if op.UpdClients? { EnrolledHold(w, op.k); }
    forall x, v | x in w.covered && x.0.home == s && (x.1, v) in w.values
      ensures (x.0, x.1, v) in w.told || x.1 in w.services[s].queue || WillTell(op', x.0, x.1, v)
    {
      assert Covers(w, x.0, x.1) && Served(w, x.0, x.1, v);
      if op.UpdClients? { NotedMore(op.res, Note(op.k, op.vals, Enrolled(w, op.k)), x.0, x.1, v); }
      if op.UpdKeys? && op.keys != [] { assert x.1 in op.keys ==> x.1 == op.keys[0] || x.1 in op.keys[1..]; }
    }
    AtKeepsInv(w, s, op');
  }

  lemma UpdatesKeepInv(w: World, s: Srv)
    requires Inv(w) && s in w.services && w.services[s].op.UpdTell?
    ensures Inv(Go(w, s))
  {
    var res := w.services[s].op.res;
    TellAllTells(At(w, s, Idle), s, res);
    var told := TellAll(At(w, s, Idle), s, res).told;
    forall x, v | x in w.covered && x.0.home == s && (x.1, v) in w.values && WillTell(w.services[s].op, x.0, x.1, v)
      ensures (x.0, x.1, v) in told
    {
      assert Covers(w, x.0, x.1);
    }
    TellKeepsInv(w, s, told);
  }

  // ---------------------------------------------------------------- remove and detach

  lemma UnsubscribeKeepsInv(w: World, s: Srv)
    requires Inv(w) && s in w.services && (w.services[s].op.RemUnsub? || w.services[s].op.DetDrop?)
    ensures Inv(Go(w, s))
  {
    var u := Go(w, s);
    forall x | x in u.covered ensures Covers(u, x.0, x.1) {
      assert x in w.covered && Covers(w, x.0, x.1);
      forall y | (x.1, y) in u.values ensures Served(u, x.0, x.1, y) {
        assert Served(w, x.0, x.1, y);
      }
    }
    forall t | t in u.services ensures Sane(u, t) {
      assert Sane(w, t);
    }
  }

  /** Every database call and every message keeps everybody covered served. */
  lemma GoKeepsInv(w: World, s: Srv)
    requires Inv(w) && s in w.services
    ensures Inv(Go(w, s))
  {
    hide Inv, Values, Enrolled;
    match w.services[s].op
    case Idle =>
    case InsAdd(k, v) =>
      SilentKeepsInv(w, s, InsClients(k, v));
      StoreKeepsInv(At(w, s, InsClients(k, v)), k, v);
    case InsTell(k, v, cs) =>
      TellKeepsInv(w, s, Tell(At(w, s, Idle), s, k, {v}, cs).told);
    case FetSub(_, _) => FetchStepsKeepInv(w, s);
    case FetExists(_, _) => FetchStepsKeepInv(w, s);
    case FetMembers(_, _) => FetchStepsKeepInv(w, s);
    case FetAdd(_, _, _) => EnrollKeepsInv(w, s);
    case FetReply(_, _, _) => ReplyKeepsInv(w, s);
    case UpdDrain(_) => DrainKeepsInv(w, s);
    case UpdKeys(_, _) => ReadKeepsInv(w, s);
    case UpdClients(_, _, _, _) => ReadKeepsInv(w, s);
    case UpdTell(_) => UpdatesKeepInv(w, s);
    case RemDrop(k, v) =>
      SilentKeepsInv(w, s, RemMembers(k));
      DropKeepsInv(At(w, s, RemMembers(k)), k, v);
    case RemUnsub(_) => UnsubscribeKeepsInv(w, s);
    case DetDrop(_, _) => UnsubscribeKeepsInv(w, s);
    case _ => SilentKeepsInv(w, s, Go(w, s).services[s].op);
  }

  lemma NextKeepsInv(w: World, a: Act)
    requires Inv(w) && Enabled(w, a)
    ensures Inv(Next(w, a))
  {
    match a
    case Begin(s, op) => SilentKeepsInv(w, s, op);
    case Step(s) => GoKeepsInv(w, s);
    case StopDraining(s) =>
      var op := UpdKeys(w.services[s].op.keys, []);
      forall x, v | x in w.covered && x.0.home == s && (x.1, v) in w.values
        ensures (x.0, x.1, v) in w.told || x.1 in w.services[s].queue || WillTell(op, x.0, x.1, v)
      {
        assert Covers(w, x.0, x.1) && Served(w, x.0, x.1, v);
      }
      AtKeepsInv(w, s, op);
    case SetUp(c) => ClientsComeAndGo(w, w.up + {c}, w.covered);
    case TakeDown(c) => ClientsComeAndGo(w, w.up - {c}, set x | x in w.covered && x.0 != c);
  }

  lemma ClientsComeAndGo(w: World, up: set<Client>, covered: set<(Client, Key)>)
    requires Inv(w) && covered <= w.covered && forall x :: x in covered ==> x.0 in up
    ensures Inv(w.(up := up, covered := covered))
  {
  }

  // ---------------------------------------------------------------- runs

  /** Services that are idle, over a database with any contents. */
  ghost predicate Begins(w: World) {
    w.covered == {} && forall s :: s in w.services ==> w.services[s].op.Idle?
  }

  ghost predicate Possible(w: World, acts: seq<Act>)
    decreases |acts|
  {
    acts != [] ==> Enabled(w, acts[0]) && Possible(Next(w, acts[0]), acts[1..])
  }

  ghost function After(w: World, acts: seq<Act>): World
    requires Possible(w, acts)
    decreases |acts|
  {
    if acts == [] then w else After(Next(w, acts[0]), acts[1..])
  }

  lemma {:induction false} RunKeepsInv(w: World, acts: seq<Act>)
    requires Inv(w) && Possible(w, acts)
    ensures Inv(After(w, acts))
    decreases |acts|
  {
    hide Inv, Enabled, Next;
    if acts != [] {
      NextKeepsInv(w, acts[0]);
      RunKeepsInv(Next(w, acts[0]), acts[1..]);
    }
  }

  /** No provider is lost: in every interleaving, for every client enrolled on a key and every value under it,
      the client was told of the value, its service has a notification for the key, or the operation its
      service is in will tell it. */
  lemma NoProviderIsLost(w: World, acts: seq<Act>, c: Client, k: Key, v: Val)
    requires Begins(w) && Possible(w, acts)
    requires (c, k) in After(w, acts).covered && (k, v) in After(w, acts).values
    ensures c.home in After(w, acts).services && Served(After(w, acts), c, k, v)
  {
    hide After, Possible, WillTell;
    RunKeepsInv(w, acts);
    assert Covers(After(w, acts), c, k);
  }

  // ---------------------------------------------------------------- a round of fetchUpdates settles everything

  ghost function Steps(w: World, s: Srv, n: nat): (u: World)
    requires s in w.services
    ensures s in u.services
    decreases n
  {
    GoKeepsServices(w, s);
    if n == 0 then w else Steps(Go(w, s), s, n - 1)
  }

  lemma GoKeepsServices(w: World, s: Srv)
    requires s in w.services
    ensures Go(w, s).services.Keys == w.services.Keys
  {
    if w.services[s].op.UpdTell? { TellAllTells(At(w, s, Idle), s, w.services[s].op.res); }
  }

  /** The service and what it is responsible for, while it alone works through fetchUpdates. */
  ghost predicate SameWorld(w: World, u: World, s: Srv) {
    u.values == w.values && u.covered == w.covered && s in u.services && s in w.services && u.services[s].subs == w.services[s].subs
  }

  /** The number of steps fetchUpdates still needs when nothing else happens. */
  ghost function Left(me: Service): nat {
    match me.op
    case UpdDrain(keys) => 3 * |me.queue| + 2 * |keys| + 3
    case UpdKeys(keys, res) => 2 * |keys| + 2
    case UpdClients(_, _, keys, _) => 2 * |keys| + 3
    case UpdTell(_) => 1
    case _ => 0
  }

  ghost predicate Updating(me: Service) {
    me.op.UpdDrain? || ((me.op.UpdKeys? || me.op.UpdClients? || me.op.UpdTell? || me.op.Idle?) && me.queue == [])
  }

  lemma UpdatesAdvance(w: World, s: Srv)
    requires s in w.services && Updating(w.services[s]) && !w.services[s].op.Idle?
    ensures var u := Go(w, s);
            SameWorld(w, u, s) && Updating(u.services[s]) && Left(u.services[s]) + 1 == Left(w.services[s])
  {
    if w.services[s].op.UpdTell? { TellAllTells(At(w, s, Idle), s, w.services[s].op.res); }
  }

  lemma {:induction false} UpdatesFinish(w: World, s: Srv)
    requires Inv(w) && s in w.services && Updating(w.services[s])
    ensures var u := Steps(w, s, Left(w.services[s]));
            Inv(u) && SameWorld(w, u, s) && u.services[s].op.Idle? && u.services[s].queue == []
    decreases Left(w.services[s])
  {
    hide Inv, Go;
    if !w.services[s].op.Idle? {
      UpdatesAdvance(w, s);
      GoKeepsInv(w, s);
      UpdatesFinish(Go(w, s), s);
    }
  }

  /** With nobody in between, fetchUpdates ends after a known number of calls, and leaves no client of the service untold. */
  lemma FetchUpdatesAlone(w: World, s: Srv, c: Client, k: Key, v: Val)
    requires Inv(w) && s in w.services && w.services[s].op.Idle?
    requires c.home == s && (c, k) in w.covered && (k, v) in w.values
    ensures var u := Steps(Next(w, Begin(s, UpdStart)), s, 3 * |w.services[s].queue| + 4);
            u.services[s].op.Idle? && u.services[s].queue == [] && (c, k, v) in u.told
  {
    assert Covers(w, c, k);
    var b := Next(w, Begin(s, UpdStart));
    NextKeepsInv(w, Begin(s, UpdStart));
    GoKeepsInv(b, s);
    var d := Go(b, s);
    assert d.services[s].op == UpdDrain([]) && Left(d.services[s]) == 3 * |w.services[s].queue| + 3;
    UpdatesFinish(d, s);
    hide Go, Left;
    var u := Steps(d, s, 3 * |w.services[s].queue| + 3);
    assert Covers(u, c, k) && Served(u, c, k, v);
  }

  // With other services in between.

  /** The client was told, or the fetchUpdates under way has the key still in its queue, or will tell it. */
  ghost predicate Settling(w: World, c: Client, k: Key, v: Val)
    requires c.home in w.services
  {
    var me := w.services[c.home];
    (c, k, v) in w.told || ((me.op.UpdStart? || me.op.UpdDrain?) && k in me.queue) || WillTell(me.op, c, k, v)
  }

  /** The client is covered and the value stored in every state of the run. */
  ghost predicate Throughout(w: World, acts: seq<Act>, c: Client, k: Key, v: Val)
    decreases |acts|
  {
    && (c, k) in w.covered && (k, v) in w.values
    && (acts != [] && Enabled(w, acts[0]) ==> Throughout(Next(w, acts[0]), acts[1..], c, k, v))
  }

  /** Steps of another service only add to the queue and to who was told, while the value is stored. */
  lemma OthersKeepSettling(w: World, s: Srv, c: Client, k: Key, v: Val)
    requires s in w.services && c.home in w.services && s != c.home && (k, v) in w.values && Settling(w, c, k, v)
    ensures c.home in Go(w, s).services && Settling(Go(w, s), c, k, v)
  {
    match w.services[s].op
    case UpdTell(res) =>
      hide WillTell;
      TellAllTells(At(w, s, Idle), s, res);
    case InsAdd(k', v') => StoreKeepsSettling(At(w, s, InsClients(k', v')), k', v', c, k, v);
    case RemDrop(k', v') => DropKeepsSettling(At(w, s, RemMembers(k')), k', v', c, k, v);
    case _ => hide WillTell;
  }

  lemma StoreKeepsSettling(w: World, k': Key, v': Val, c: Client, k: Key, v: Val)
    requires c.home in w.services && (k, v) in w.values && Settling(w, c, k, v)
    ensures c.home in Store(w, k', v').services && Settling(Store(w, k', v'), c, k, v)
  {
    hide WillTell;
  }

  lemma DropKeepsSettling(w: World, k': Key, v': Val, c: Client, k: Key, v: Val)
    requires c.home in w.services && Settling(w, c, k, v)
    ensures c.home in Drop(w, k', v').services && Settling(Drop(w, k', v'), c, k, v)
  {
    hide WillTell;
  }

  lemma DrainKeepsSettling(w: World, c: Client, k: Key, v: Val)
    requires Covers(w, c, k) && Settling(w, c, k, v) && (w.services[c.home].op.UpdStart? || w.services[c.home].op.UpdDrain?)
    ensures c.home in Go(w, c.home).services && Settling(Go(w, c.home), c, k, v)
  {
    var q := w.services[c.home].queue;
    if q != [] && k in q && k !in q[1..] { assert k == q[0]; }
  }

  lemma ReadKeepsSettling(w: World, c: Client, k: Key, v: Val)
    requires Covers(w, c, k) && Settling(w, c, k, v) && (k, v) in w.values
    requires w.services[c.home].op.UpdKeys? || w.services[c.home].op.UpdClients?
    ensures c.home in Go(w, c.home).services && Settling(Go(w, c.home), c, k, v)
  {
    var op := w.services[c.home].op;
    if op.UpdKeys? && op.keys != [] {
      ValuesHold(w, op.keys[0]);
      assert k in op.keys ==> k == op.keys[0] || k in op.keys[1..];
    }
    if op.UpdClients? {
      EnrolledHold(w, op.k);
      NotedMore(op.res, Note(op.k, op.vals, Enrolled(w, op.k)), c, k, v);
    }
  }

  lemma TellingSettles(w: World, c: Client, k: Key, v: Val)
    requires Covers(w, c, k) && Settling(w, c, k, v) && w.services[c.home].op.UpdTell?
    ensures c.home in Go(w, c.home).services && Settling(Go(w, c.home), c, k, v)
  {
    TellAllTells(At(w, c.home, Idle), c.home, w.services[c.home].op.res);
  }

  lemma OtherCallsKeepSettling(w: World, c: Client, k: Key, v: Val)
    requires Covers(w, c, k) && Settling(w, c, k, v) && (k, v) in w.values
    requires var op := w.services[c.home].op;
             !(op.UpdStart? || op.UpdDrain? || op.UpdKeys? || op.UpdClients? || op.UpdTell?)
    ensures c.home in Go(w, c.home).services && Settling(Go(w, c.home), c, k, v)
  {
  }

  lemma OwnCallKeepsSettling(w: World, c: Client, k: Key, v: Val)
    requires Covers(w, c, k) && Settling(w, c, k, v) && (k, v) in w.values
    ensures c.home in Go(w, c.home).services && Settling(Go(w, c.home), c, k, v)
  {
    hide Covers, Settling, Go;
    var op := Home(w, c, k).op;
    if op.UpdStart? || op.UpdDrain? {
      DrainKeepsSettling(w, c, k, v);
    } else if op.UpdKeys? || op.UpdClients? {
      ReadKeepsSettling(w, c, k, v);
    } else if op.UpdTell? {
      TellingSettles(w, c, k, v);
    } else {
      OtherCallsKeepSettling(w, c, k, v);
    }
  }

  ghost function Home(w: World, c: Client, k: Key): Service
    requires Covers(w, c, k)
  {
    w.services[c.home]
  }

  lemma NextKeepsSettling(w: World, a: Act, c: Client, k: Key, v: Val)
    requires Covers(w, c, k) && Settling(w, c, k, v) && (k, v) in w.values
    requires Enabled(w, a) && a != StopDraining(c.home)
    ensures c.home in Next(w, a).services && Settling(Next(w, a), c, k, v)
  {
    match a
    case Step(s) =>
      hide Go, Settling;
      if s == c.home { OwnCallKeepsSettling(w, c, k, v); } else { OthersKeepSettling(w, s, c, k, v); }
    case _ =>
  }

  lemma {:induction false} RunKeepsSettling(w: World, acts: seq<Act>, c: Client, k: Key, v: Val)
    requires Inv(w) && Possible(w, acts) && Throughout(w, acts, c, k, v) && c.home in w.services && Settling(w, c, k, v)
    requires StopDraining(c.home) !in acts
    ensures c.home in After(w, acts).services && Settling(After(w, acts), c, k, v)
    decreases |acts|
  {
    hide Inv, Enabled, Next, Settling;
    if acts != [] {
      CoveredIsCovered(w, c, k);
      NextKeepsSettling(w, acts[0], c, k, v);
      NextKeepsInv(w, acts[0]);
      RunKeepsSettling(Next(w, acts[0]), acts[1..], c, k, v);
    }
  }

  lemma CoveredIsCovered(w: World, c: Client, k: Key)
    requires Inv(w) && (c, k) in w.covered
    ensures Covers(w, c, k)
  {
    var x := (c, k);
    assert Covers(w, x.0, x.1);
  }

  /** A fetchUpdates that runs to its end leaves no covered client of the service untold, whatever the other services
      do meanwhile, as long as get_message does not answer None early. */
  lemma FetchUpdatesTellsEverybody(w: World, acts: seq<Act>, c: Client, k: Key, v: Val)
    requires Inv(w) && Possible(w, acts) && Throughout(w, acts, c, k, v)
    requires acts != [] && acts[0] == Begin(c.home, UpdStart) && StopDraining(c.home) !in acts
    requires c.home in After(w, acts).services && After(w, acts).services[c.home].op.Idle?
    ensures (c, k, v) in After(w, acts).told
  {
    hide Possible, After, Throughout;
    FirstOf(w, acts, c, k, v);
    CoveredIsCovered(w, c, k);
    NextKeepsInv(w, acts[0]);
    RunKeepsSettling(Next(w, acts[0]), acts[1..], c, k, v);
  }

  lemma FirstOf(w: World, acts: seq<Act>, c: Client, k: Key, v: Val)
    requires Possible(w, acts) && Throughout(w, acts, c, k, v) && acts != []
    ensures (c, k) in w.covered && Enabled(w, acts[0]) && Possible(Next(w, acts[0]), acts[1..])
    ensures Throughout(Next(w, acts[0]), acts[1..], c, k, v) && After(w, acts) == After(Next(w, acts[0]), acts[1..])
  {
  }

  // ---------------------------------------------------------------- nobody is told who did not ask

  ghost predicate NotesSourced(res: seq<Note>, es: set<(Key, Client)>, vs: set<(Key, Val)>) {
    forall i :: 0 <= i < |res| ==> ValsIn(res[i].key, res[i].vals, vs) && ClientsIn(res[i].key, res[i].clients, es)
  }

  ghost predicate ValsIn(k: Key, vals: set<Val>, vs: set<(Key, Val)>) {
    forall v :: v in vals ==> (k, v) in vs
  }

  ghost predicate ClientsIn(k: Key, cs: set<Client>, es: set<(Key, Client)>) {
    forall c :: c in cs ==> (k, c) in es
  }

  /** Everything the operation holds to tell somebody was read from these enrolments and values. */
  ghost predicate Sourced(op: Op, es: set<(Key, Client)>, vs: set<(Key, Val)>) {
    match op
    case InsClients(k, v) => (k, v) in vs
    case InsTell(k, v, cs) => (k, v) in vs && ClientsIn(k, cs, es)
    case FetAdd(k, c, vals) => ValsIn(k, vals, vs)
    case FetReply(k, c, vals) => (k, c) in es && ValsIn(k, vals, vs)
    case UpdKeys(_, res) => NotesSourced(res, es, vs)
    case UpdClients(k, vals, _, res) => ValsIn(k, vals, vs) && NotesSourced(res, es, vs)
    case UpdTell(res) => NotesSourced(res, es, vs)
    case _ => true
  }

  ghost predicate Fed(w: World, es: set<(Key, Client)>, vs: set<(Key, Val)>) {
    w.clients <= es && w.values <= vs && forall s :: s in w.services ==> Sourced(w.services[s].op, es, vs)
  }

  ghost predicate ToldFrom(w: World, u: World, es: set<(Key, Client)>, vs: set<(Key, Val)>) {
    forall c: Client, k: Key, v: Val :: (c, k, v) in u.told ==> (c, k, v) in w.told || ((k, c) in es && (k, v) in vs)
  }

  lemma NoNotesSourced(es: set<(Key, Client)>, vs: set<(Key, Val)>)
    ensures NotesSourced([], es, vs)
  {
  }

  lemma NotesSourcedMore(res: seq<Note>, n: Note, es: set<(Key, Client)>, vs: set<(Key, Val)>)
    requires NotesSourced(res, es, vs) && ValsIn(n.key, n.vals, vs) && ClientsIn(n.key, n.clients, es)
    ensures NotesSourced(res + [n], es, vs)
  {
  }

  lemma SourcedMore(op: Op, es: set<(Key, Client)>, vs: set<(Key, Val)>, es': set<(Key, Client)>, vs': set<(Key, Val)>)
    requires Sourced(op, es, vs) && es <= es' && vs <= vs'
    ensures Sourced(op, es', vs')
  {
  }

  lemma UpdatesSourced(w: World, s: Srv, es: set<(Key, Client)>, vs: set<(Key, Val)>)
    requires Fed(w, es, vs) && s in w.services
    requires var op := w.services[s].op; op.UpdStart? || op.UpdDrain? || op.UpdKeys? || op.UpdClients? || op.UpdTell?
    ensures s in Go(w, s).services && Sourced(Go(w, s).services[s].op, es, vs)
  {
    NoNotesSourced(es, vs);
    hide NotesSourced;
    match w.services[s].op
    case UpdTell(res) => TellAllTells(At(w, s, Idle), s, res);
    case UpdClients(k, vals, _, res) => NotesSourcedMore(res, Note(k, vals, Enrolled(w, k)), es, vs);
    case _ =>
  }

  lemma CallsSourced(w: World, s: Srv, es: set<(Key, Client)>, vs: set<(Key, Val)>)
    requires Fed(w, es, vs) && s in w.services
    requires var op := w.services[s].op; !(op.UpdStart? || op.UpdDrain? || op.UpdKeys? || op.UpdClients? || op.UpdTell?)
    ensures s in Go(w, s).services && Sourced(Go(w, s).services[s].op, es + Go(w, s).clients, vs + Go(w, s).values)
  {
    hide NotesSourced, TellAll;
  }

  /** The service's own next operation holds only what it just read, or held before. */
  lemma OpSourced(w: World, s: Srv, es: set<(Key, Client)>, vs: set<(Key, Val)>)
    requires Fed(w, es, vs) && s in w.services
    ensures s in Go(w, s).services && Sourced(Go(w, s).services[s].op, es + Go(w, s).clients, vs + Go(w, s).values)
  {
    hide Go, Sourced;
    var op := w.services[s].op;
    if op.UpdStart? || op.UpdDrain? || op.UpdKeys? || op.UpdClients? || op.UpdTell? {
      UpdatesSourced(w, s, es, vs);
      SourcedMore(Go(w, s).services[s].op, es, vs, es + Go(w, s).clients, vs + Go(w, s).values);
    } else {
      CallsSourced(w, s, es, vs);
    }
  }

  lemma GoToldFrom(w: World, s: Srv, es: set<(Key, Client)>, vs: set<(Key, Val)>)
    requires Fed(w, es, vs) && s in w.services
    ensures ToldFrom(w, Go(w, s), es, vs)
  {
    assert Sourced(w.services[s].op, es, vs);
    if w.services[s].op.UpdTell? {
      var res := w.services[s].op.res;
      forall c: Client, k: Key, v: Val | (c, k, v) in Go(w, s).told
        ensures (c, k, v) in w.told || ((k, c) in es && (k, v) in vs)
      {
        TellAllIs(At(w, s, Idle), s, res, c, k, v);
      }
    }
  }

  lemma OtherOpsStay(w: World, s: Srv, t: Srv)
    requires s in w.services && t in w.services && s != t
    ensures t in Go(w, s).services && Go(w, s).services[t].op == w.services[t].op
  {
    if w.services[s].op.UpdTell? { TellAllTells(At(w, s, Idle), s, w.services[s].op.res); }
  }

  lemma GoFed(w: World, s: Srv, es: set<(Key, Client)>, vs: set<(Key, Val)>)
    requires Fed(w, es, vs) && s in w.services
    ensures Fed(Go(w, s), es + Go(w, s).clients, vs + Go(w, s).values)
  {
    GoKeepsServices(w, s);
    OpSourced(w, s, es, vs);
    hide Go, Sourced;
    var u := Go(w, s);
    forall t | t in u.services ensures Sourced(u.services[t].op, es + u.clients, vs + u.values) {
      if t != s {
        OtherOpsStay(w, s, t);
        SourcedMore(w.services[t].op, es, vs, es + u.clients, vs + u.values);
      }
    }
  }

  lemma NextFed(w: World, a: Act, es: set<(Key, Client)>, vs: set<(Key, Val)>)
    requires Fed(w, es, vs) && Enabled(w, a)
    ensures Fed(Next(w, a), es + Next(w, a).clients, vs + Next(w, a).values) && ToldFrom(w, Next(w, a), es, vs)
  {
    if a.Step? {
      hide Go, Fed, ToldFrom;
      GoFed(w, a.s, es, vs);
      GoToldFrom(w, a.s, es, vs);
    } else {
      var u := Next(w, a);
      assert es + u.clients == es && vs + u.values == vs;
    }
  }

  /** Who was enrolled on what, and what was stored, in some state of the run. */
  ghost function EverEnrolled(w: World, acts: seq<Act>): set<(Key, Client)>
    requires Possible(w, acts)
    decreases |acts|
  {
    w.clients + if acts == [] then {} else EverEnrolled(Next(w, acts[0]), acts[1..])
  }

  ghost function EverStored(w: World, acts: seq<Act>): set<(Key, Val)>
    requires Possible(w, acts)
    decreases |acts|
  {
    w.values + if acts == [] then {} else EverStored(Next(w, acts[0]), acts[1..])
  }

  lemma {:induction false} RunToldFrom(w: World, acts: seq<Act>, es: set<(Key, Client)>, vs: set<(Key, Val)>)
    requires Fed(w, es, vs) && Possible(w, acts)
    ensures ToldFrom(w, After(w, acts), es + EverEnrolled(w, acts), vs + EverStored(w, acts))
    decreases |acts|
  {
    hide Fed, Enabled, Next;
    if acts != [] {
      var u := Next(w, acts[0]);
      NextFed(w, acts[0], es, vs);
      RunToldFrom(u, acts[1..], es + u.clients, vs + u.values);
      StartsIncluded(u, acts[1..]);
    }
  }

  lemma StartsIncluded(w: World, acts: seq<Act>)
    requires Possible(w, acts)
    ensures w.clients <= EverEnrolled(w, acts) && w.values <= EverStored(w, acts)
  {
  }

  /** Nobody is told who did not ask, and nothing that was not there: whoever is newly told of a value under a key in a
      run was enrolled on the key, and the value was stored under it, in some state of the run. */
  lemma OnlyTheEnrolledAreTold(w: World, acts: seq<Act>, c: Client, k: Key, v: Val)
    requires Begins(w) && Possible(w, acts) && (c, k, v) !in w.told && (c, k, v) in After(w, acts).told
    ensures (k, c) in EverEnrolled(w, acts) && (k, v) in EverStored(w, acts)
  {
    assert Fed(w, w.clients, w.values);
    RunToldFrom(w, acts, w.clients, w.values);
    StartsIncluded(w, acts);
  }

  // ---------------------------------------------------------------- what delSub costs

  /** A new value reaches an idle client's service exactly if the service is subscribed to the key. */
  lemma NewValueReachesSubscribers(w: World, c: Client, k: Key, v: Val)
    requires c.home in w.services && w.services[c.home].op.Idle? && k !in w.services[c.home].queue && (k, v) !in w.values
    ensures c.home in Store(w, k, v).services
    ensures Served(Store(w, k, v), c, k, v) <==> k in w.services[c.home].subs
  {
  }

  // The operations when nothing comes in between.

  lemma Unroll(w: World, s: Srv, n: nat)
    requires s in w.services && 0 < n
    ensures s in Go(w, s).services && Steps(w, s, n) == Steps(Go(w, s), s, n - 1)
  {
    GoKeepsServices(w, s);
  }

  lemma AtTwice(w: World, s: Srv, op: Op, op': Op)
    requires s in w.services
    ensures At(At(w, s, op), s, op') == At(w, s, op')
    ensures w.services[s].op == op ==> At(w, s, op) == w
  {
  }

  lemma StoreAt(w: World, s: Srv, op: Op, k: Key, v: Val)
    requires s in w.services
    ensures s in Store(w, k, v).services
    ensures Store(At(w, s, op), k, v) == At(Store(w, k, v), s, op)
  {
  }

  /** insert stores a new value and tells the clients of its own host. */
  lemma InsertAlone(w: World, s: Srv, k: Key, v: Val)
    requires s in w.services && w.services[s].op.Idle?
    ensures Steps(At(w, s, InsExists(k, v)), s, 5) ==
            if (k, v) in w.values then w else Tell(Store(w, k, v), s, k, {v}, Enrolled(w, k))
  {
    hide Steps, Store, Tell;
    ValuesHold(w, k);
    Unroll(At(w, s, InsExists(k, v)), s, 5);
    AtTwice(w, s, InsExists(k, v), InsMembers(k, v));
    AtTwice(w, s, InsExists(k, v), InsAdd(k, v));
    AtTwice(w, s, InsMembers(k, v), InsAdd(k, v));
    AtTwice(w, s, InsMembers(k, v), Idle);
    AtTwice(w, s, Idle, Idle);
    assert Values(At(w, s, InsExists(k, v)), k) == Values(w, k) == Values(At(w, s, InsMembers(k, v)), k);
    if (k, v) in w.values {
      Unroll(At(w, s, InsMembers(k, v)), s, 4);
      StaysIdle(w, s, 3);
    } else {
      if Values(w, k) != {} {
        Unroll(At(w, s, InsMembers(k, v)), s, 4);
        InsertRest(w, s, k, v, 0);
      } else {
        InsertRest(w, s, k, v, 1);
      }
    }
  }

  lemma {:induction false} StaysIdle(w: World, s: Srv, n: nat)
    requires s in w.services && w.services[s].op.Idle?
    ensures Steps(w, s, n) == w
    decreases n
  {
    hide TellAll, Store;
    if 0 < n { StaysIdle(w, s, n - 1); }
  }

  lemma InsertRest(w: World, s: Srv, k: Key, v: Val, n: nat)
    requires s in w.services && w.services[s].op.Idle? && (k, v) !in w.values
    ensures Steps(At(w, s, InsAdd(k, v)), s, 3 + n) == Tell(Store(w, k, v), s, k, {v}, Enrolled(w, k))
  {
    hide Steps;
    AtTwice(w, s, InsAdd(k, v), InsClients(k, v));
    StoreAt(w, s, InsClients(k, v), k, v);
    StoreAt(w, s, Idle, k, v);
    AtTwice(w, s, Idle, Idle);
    Unroll(At(w, s, InsAdd(k, v)), s, 3 + n);
    var u := Store(w, k, v);
    assert Enrolled(u, k) == Enrolled(w, k);
    InsertTail(u, s, k, v, n);
  }

  lemma InsertTail(u: World, s: Srv, k: Key, v: Val, n: nat)
    requires s in u.services && u.services[s].op.Idle?
    ensures Steps(At(u, s, InsClients(k, v)), s, 2 + n) == Tell(u, s, k, {v}, Enrolled(u, k))
  {
    hide Steps;
    var cs := Enrolled(u, k);
    AtTwice(u, s, InsClients(k, v), InsTell(k, v, cs));
    AtTwice(u, s, InsTell(k, v, cs), Idle);
    AtTwice(u, s, Idle, Idle);
    Unroll(At(u, s, InsClients(k, v)), s, 2 + n);
    assert Go(At(u, s, InsClients(k, v)), s) == At(u, s, InsTell(k, v, cs));
    Unroll(At(u, s, InsTell(k, v, cs)), s, 1 + n);
    StaysIdle(Tell(u, s, k, {v}, cs), s, n);
  }

  /** fetch subscribes, reads, enrolls and replies with what it read. */
  lemma FetchAlone(w: World, s: Srv, k: Key, c: Client)
    requires s in w.services && w.services[s].op.Idle?
    ensures Steps(At(w, s, FetSub(k, c)), s, 5) ==
            w.(services := w.services[s := w.services[s].(subs := w.services[s].subs + {k})],
            clients := w.clients + {(k, c)}, covered := if c in w.up then w.covered + {(c, k)} else w.covered,
            told := w.told + set v | v in Values(w, k) :: (c, k, v))
  {
    hide Steps;
    var w1 := w.(services := w.services[s := w.services[s].(subs := w.services[s].subs + {k})]);
    Unroll(At(w, s, FetSub(k, c)), s, 5);
    assert Go(At(w, s, FetSub(k, c)), s) == At(w1, s, FetExists(k, c));
    assert Values(w1, k) == Values(w, k);
    Unroll(At(w1, s, FetExists(k, c)), s, 4);
    AtTwice(w1, s, FetExists(k, c), FetMembers(k, c));
    AtTwice(w1, s, FetExists(k, c), FetAdd(k, c, {}));
    AtTwice(w1, s, FetMembers(k, c), FetAdd(k, c, Values(w, k)));
    if Values(w, k) != {} {
      Unroll(At(w1, s, FetMembers(k, c)), s, 3);
      assert Values(At(w1, s, FetMembers(k, c)), k) == Values(w, k);
      FetchRest(w1, s, k, c, Values(w, k), 0);
    } else {
      FetchRest(w1, s, k, c, {}, 1);
    }
  }

  lemma FetchRest(w: World, s: Srv, k: Key, c: Client, vals: set<Val>, n: nat)
    requires s in w.services && w.services[s].op.Idle?
    ensures Steps(At(w, s, FetAdd(k, c, vals)), s, 2 + n) ==
            w.(clients := w.clients + {(k, c)}, covered := if c in w.up then w.covered + {(c, k)} else w.covered,
            told := w.told + set v | v in vals :: (c, k, v))
  {
    hide Steps;
    var w1 := w.(clients := w.clients + {(k, c)}, covered := if c in w.up then w.covered + {(c, k)} else w.covered);
    Unroll(At(w, s, FetAdd(k, c, vals)), s, 2 + n);
    AtTwice(w, s, FetAdd(k, c, vals), FetReply(k, c, vals));
    assert Go(At(w, s, FetAdd(k, c, vals)), s) == At(w1, s, FetReply(k, c, vals));
    Unroll(At(w1, s, FetReply(k, c, vals)), s, 1 + n);
    AtTwice(w1, s, FetReply(k, c, vals), Idle);
    AtTwice(w1, s, Idle, Idle);
    var w2 := w1.(told := w1.told + set v | v in vals :: (c, k, v));
    assert Go(At(w1, s, FetReply(k, c, vals)), s) == w2;
    StaysIdle(w2, s, n);
  }

  /** remove drops the value, and the subscription with the last value. */
  lemma RemoveAlone(w: World, s: Srv, k: Key, v: Val)
    requires s in w.services && w.services[s].op.Idle?
    ensures s in Drop(w, k, v).services
    ensures var d := Drop(w, k, v);
            Steps(At(w, s, RemDrop(k, v)), s, 3) ==
            if Values(d, k) != {} then d
            else d.(services := d.services[s := d.services[s].(subs := d.services[s].subs - {k})],
                 covered := set x | x in w.covered && !(x.1 == k && x.0.home == s))
  {
    hide Steps;
    var d := Drop(w, k, v);
    Unroll(At(w, s, RemDrop(k, v)), s, 3);
    AtTwice(w, s, RemDrop(k, v), RemMembers(k));
    DropAt(w, s, RemMembers(k), k, v);
    Unroll(At(d, s, RemMembers(k)), s, 2);
    assert Values(At(d, s, RemMembers(k)), k) == Values(d, k);
    AtTwice(d, s, RemMembers(k), RemUnsub(k));
    AtTwice(d, s, RemMembers(k), Idle);
    AtTwice(d, s, Idle, Idle);
    assert d.services[s].op.Idle?;
    if Values(d, k) != {} {
      StaysIdle(d, s, 1);
    } else {
      Unroll(At(d, s, RemUnsub(k)), s, 1);
      Unsubscribed(d, s, k);
    }
  }

  /** detach takes the client off the key, and nothing else. */
  lemma DetachAlone(w: World, s: Srv, k: Key, c: Client)
    requires s in w.services && w.services[s].op.Idle?
    ensures Steps(At(w, s, DetDrop(k, c)), s, 1) == w.(clients := w.clients - {(k, c)}, covered := w.covered - {(c, k)})
  {
    hide Steps;
    Unroll(At(w, s, DetDrop(k, c)), s, 1);
    AtTwice(w, s, DetDrop(k, c), Idle);
    AtTwice(w, s, Idle, Idle);
    StaysIdle(w.(clients := w.clients - {(k, c)}, covered := w.covered - {(c, k)}), s, 0);
  }

  lemma Unsubscribed(d: World, s: Srv, k: Key)
    requires s in d.services && d.services[s].op.Idle?
    ensures Steps(Go(At(d, s, RemUnsub(k)), s), s, 0) ==
            d.(services := d.services[s := d.services[s].(subs := d.services[s].subs - {k})],
            covered := set x | x in d.covered && !(x.1 == k && x.0.home == s))
  {
  }

  lemma DropAt(w: World, s: Srv, op: Op, k: Key, v: Val)
    requires s in w.services
    ensures s in Drop(w, k, v).services
    ensures Drop(At(w, s, op), k, v) == At(Drop(w, k, v), s, op)
  {
  }

  // ---------------------------------------------------------------- a lost provider

  /** The calls of one operation, with nothing in between. */
  ghost function Whole(s: Srv, op: Op, n: nat): seq<Act> {
    [Begin(s, op)] + seq(n, _ => Step(s))
  }

  lemma {:induction false} StepsAreActs(w: World, s: Srv, n: nat)
    requires s in w.services
    ensures Possible(w, seq(n, _ => Step(s))) && After(w, seq(n, _ => Step(s))) == Steps(w, s, n)
    decreases n
  {
    hide Go;
    var acts := seq(n, _ => Step(s));
    if 0 < n {
      GoKeepsServices(w, s);
      assert acts[1..] == seq(n - 1, _ => Step(s));
      StepsAreActs(Go(w, s), s, n - 1);
    }
  }

  lemma WholeRuns(w: World, s: Srv, op: Op, n: nat)
    requires Enabled(w, Begin(s, op))
    ensures Possible(w, Whole(s, op, n)) && After(w, Whole(s, op, n)) == Steps(At(w, s, op), s, n)
  {
    hide Steps;
    var acts := Whole(s, op, n);
    assert acts[1..] == seq(n, _ => Step(s));
    StepsAreActs(At(w, s, op), s, n);
  }

  lemma {:induction false} AfterMore(w: World, a: seq<Act>, b: seq<Act>)
    requires Possible(w, a) && Possible(After(w, a), b)
    ensures Possible(w, a + b) && After(w, a + b) == After(After(w, a), b)
    decreases |a|
  {
    hide Enabled, Next;
    if a == [] {
      assert a + b == b;
    } else {
      assert (a + b)[1..] == a[1..] + b;
      AfterMore(Next(w, a[0]), a[1..], b);
    }
  }

  lemma DrainOne(w: World, s: Srv, k: Key)
    requires s in w.services && w.services[s].queue == [k] && w.services[s].op.Idle?
    ensures Go(At(w, s, UpdDrain([])), s) ==
            At(w.(services := w.services[s := w.services[s].(queue := [])]), s, UpdDrain([k]))
  {
    assert [k][1..] == [] && [] + [k] == [k];
  }

  /** A round of updates that finds nothing under the notified key only empties the queue. */
  lemma UpdatesOfNothing(w: World, s: Srv, k: Key)
    requires s in w.services && w.services[s].op.Idle? && w.services[s].queue == [k] && w.services[s].subs != {}
    requires Values(w, k) == {}
    ensures Steps(At(w, s, UpdStart), s, 7) == w.(services := w.services[s := w.services[s].(queue := [])])
  {
    hide Steps;
    var u := w.(services := w.services[s := w.services[s].(queue := [])]);
    Unroll(At(w, s, UpdStart), s, 7);
    AtTwice(w, s, UpdStart, UpdDrain([]));
    Unroll(At(w, s, UpdDrain([])), s, 6);
    DrainOne(w, s, k);
    Unroll(At(u, s, UpdDrain([k])), s, 5);
    AtTwice(u, s, UpdDrain([k]), UpdKeys([k], []));
    assert Values(u, k) == Values(w, k);
    UpdatesRest(u, s, k);
  }

  lemma ReadNothing(u: World, s: Srv, k: Key)
    requires s in u.services && u.services[s].op.Idle? && Values(u, k) == {}
    ensures Go(At(u, s, UpdKeys([k], [])), s) == At(u, s, UpdClients(k, {}, [], []))
    ensures Go(At(u, s, UpdClients(k, {}, [], [])), s) == At(u, s, UpdKeys([], [Note(k, {}, Enrolled(u, k))]))
  {
    var n := Note(k, {}, Enrolled(u, k));
    AtTwice(u, s, UpdKeys([k], []), UpdClients(k, {}, [], []));
    AtTwice(u, s, UpdClients(k, {}, [], []), UpdKeys([], [n]));
    assert Values(At(u, s, UpdKeys([k], [])), k) == {} && Enrolled(At(u, s, UpdClients(k, {}, [], [])), k) == n.clients;
    assert [k][1..] == [] && [] + [n] == [n];
  }

  lemma SayNothing(u: World, s: Srv, n: Note)
    requires s in u.services && u.services[s].op.Idle? && n.vals == {}
    ensures Go(At(u, s, UpdKeys([], [n])), s) == At(u, s, UpdTell([n]))
    ensures Go(At(u, s, UpdTell([n])), s) == u
  {
    hide TellAll;
    AtTwice(u, s, UpdKeys([], [n]), UpdTell([n]));
    AtTwice(u, s, UpdTell([n]), Idle);
    AtTwice(u, s, Idle, Idle);
    TellsNothing(u, s, n);
  }

  lemma UpdatesRest(u: World, s: Srv, k: Key)
    requires s in u.services && u.services[s].op.Idle? && Values(u, k) == {}
    ensures Steps(At(u, s, UpdKeys([k], [])), s, 4) == u
  {
    hide Steps, Go;
    var n := Note(k, {}, Enrolled(u, k));
    ReadNothing(u, s, k);
    SayNothing(u, s, n);
    Unroll(At(u, s, UpdKeys([k], [])), s, 4);
    Unroll(At(u, s, UpdClients(k, {}, [], [])), s, 3);
    Unroll(At(u, s, UpdKeys([], [n])), s, 2);
    Unroll(At(u, s, UpdTell([n])), s, 1);
    StaysIdle(u, s, 0);
  }

  lemma TellsNothing(w: World, s: Srv, n: Note)
    requires n.vals == {}
    ensures TellAll(w, s, [n]) == w
  {
    assert Tell(w, s, n.key, n.vals, n.clients).told == w.told;
  }

  /** A client fetches a key, the key's only provider is removed through the same service, the service works off
      its notifications. */
  ghost function FetchRemoveUpdate(s: Srv, c: Client, k: Key, v: Val): seq<Act> {
    Whole(s, FetSub(k, c), 5) + Whole(s, RemDrop(k, v), 3) + Whole(s, UpdStart, 7)
  }

  lemma RemoveLosesSubscription(w: World, s: Srv, c: Client, k: Key, v: Val)
    requires s in w.services && w.services[s].op.Idle? && w.services[s].queue == [] && w.services[s].subs - {k} != {}
    requires c.home == s && c in w.up && Values(w, k) == {v}
    ensures Possible(w, FetchRemoveUpdate(s, c, k, v))
    ensures var u := After(w, FetchRemoveUpdate(s, c, k, v));
            && s in u.services && u.services[s].op.Idle? && u.services[s].queue == [] && k !in u.services[s].subs
            && (k, c) in u.clients && c in u.up && u.values == w.values - {(k, v)} && u.told == w.told + {(c, k, v)}
            && u.services.Keys == w.services.Keys
            && forall t :: t in w.services && t != s ==> u.services[t].op == w.services[t].op
  {
    hide Steps, Possible, After;
    ValuesHold(w, k);
    WholeRuns(w, s, FetSub(k, c), 5);
    FetchAlone(w, s, k, c);
    var w1 := After(w, Whole(s, FetSub(k, c), 5));
    assert w1.told == w.told + {(c, k, v)};
    WholeRuns(w1, s, RemDrop(k, v), 3);
    RemoveAlone(w1, s, k, v);
    ValuesHold(Drop(w1, k, v), k);
    var w2 := After(w1, Whole(s, RemDrop(k, v), 3));
    assert w2.services[s].queue == [k] by { assert [] + [k] == [k]; }
    assert Values(w2, k) == Values(Drop(w1, k, v), k);
    WholeRuns(w2, s, UpdStart, 7);
    UpdatesOfNothing(w2, s, k);
    AfterMore(w, Whole(s, FetSub(k, c), 5), Whole(s, RemDrop(k, v), 3));
    AfterMore(w, Whole(s, FetSub(k, c), 5) + Whole(s, RemDrop(k, v), 3), Whole(s, UpdStart, 7));
  }

  /** Nothing at the service concerns the key: no subscription, no notification, no operation under way. */
  ghost predicate Deaf(me: Service, k: Key) {
    && k !in me.subs && k !in me.queue
    && match me.op
       case Idle => true
       case InsExists(k', _) => k' != k
       case InsMembers(k', _) => k' != k
       case InsAdd(k', _) => k' != k
       case InsClients(k', _) => k' != k
       case InsTell(k', _, _) => k' != k
       case FetSub(k', _) => k' != k
       case FetExists(k', _) => k' != k
       case FetMembers(k', _) => k' != k
       case FetAdd(k', _, _) => k' != k
       case FetReply(k', _, _) => k' != k
       case UpdStart => true
       case UpdDrain(keys) => k !in keys
       case UpdKeys(keys, res) => k !in keys && Unnoted(res, k)
       case UpdClients(k', _, keys, res) => k' != k && k !in keys && Unnoted(res, k)
       case UpdTell(res) => Unnoted(res, k)
       case RemDrop(_, _) => true
       case RemMembers(_) => true
       case RemUnsub(_) => true
       case DetDrop(_, _) => true
  }

  ghost predicate Unnoted(res: seq<Note>, k: Key) {
    forall i :: 0 <= i < |res| ==> res[i].key != k
  }

  /** The service begins to fetch the key, or to insert under it. */
  predicate Asks(a: Act, s: Srv, k: Key) {
    a.Begin? && a.s == s && ((a.op.FetSub? && a.op.k == k) || (a.op.InsExists? && a.op.k == k))
  }

  /** No client of the service hears more under the key. */
  ghost predicate NoNews(w: World, u: World, s: Srv, k: Key) {
    forall c: Client, v: Val :: c.home == s && (c, k, v) in u.told ==> (c, k, v) in w.told
  }

  lemma {:induction false} UnnotedTellsNothing(w: World, s: Srv, t: Srv, res: seq<Note>, k: Key)
    requires s != t || Unnoted(res, k)
    ensures NoNews(w, TellAll(w, t, res), s, k)
    decreases |res|
  {
    if res != [] {
      var m := Tell(w, t, res[0].key, res[0].vals, res[0].clients);
      UnnotedTellsNothing(m, s, t, res[1..], k);
    }
  }

  lemma OwnCallStaysDeaf(w: World, s: Srv, k: Key)
    requires s in w.services && Deaf(w.services[s], k)
    ensures s in Go(w, s).services && Deaf(Go(w, s).services[s], k) && NoNews(w, Go(w, s), s, k)
  {
    if w.services[s].op.UpdTell? {
      TellAllTells(At(w, s, Idle), s, w.services[s].op.res);
      UnnotedTellsNothing(At(w, s, Idle), s, s, w.services[s].op.res, k);
    }
  }

  lemma OtherCallsStayDeaf(w: World, s: Srv, t: Srv, k: Key)
    requires s in w.services && t in w.services && s != t && Deaf(w.services[s], k) && Sane(w, t)
    ensures s in Go(w, t).services && Deaf(Go(w, t).services[s], k) && NoNews(w, Go(w, t), s, k)
  {
    if w.services[t].op.UpdTell? {
      TellAllTells(At(w, t, Idle), t, w.services[t].op.res);
      UnnotedTellsNothing(At(w, t, Idle), s, t, w.services[t].op.res, k);
    }
  }

  lemma NextStaysDeaf(w: World, a: Act, s: Srv, k: Key)
    requires Inv(w) && Enabled(w, a) && s in w.services && Deaf(w.services[s], k) && !Asks(a, s, k)
    ensures s in Next(w, a).services && Deaf(Next(w, a).services[s], k) && NoNews(w, Next(w, a), s, k)
  {
    match a
    case Step(t) =>
      assert Sane(w, t);
      hide Inv, Go, Deaf, NoNews, Sane;
      if t == s { OwnCallStaysDeaf(w, s, k); } else { OtherCallsStayDeaf(w, s, t, k); }
    case _ =>
  }

  /** Once nothing at its service concerns the key, no client of the service is told of anything under the key, in any
      continuation, unless the service itself begins to fetch the key or to insert under it. */
  lemma {:induction false} DeafUntilAsked(w: World, acts: seq<Act>, s: Srv, k: Key)
    requires Inv(w) && Possible(w, acts) && s in w.services && Deaf(w.services[s], k)
    requires forall i :: 0 <= i < |acts| ==> !Asks(acts[i], s, k)
    ensures NoNews(w, After(w, acts), s, k)
    decreases |acts|
  {
    hide Inv, Deaf, Enabled, Next, Asks;
    if acts != [] {
      NextStaysDeaf(w, acts[0], s, k);
      NextKeepsInv(w, acts[0]);
      DeafUntilAsked(Next(w, acts[0]), acts[1..], s, k);
    }
  }

  /** Nothing pending announces the next provider, stored through another service, to that client, though it is still
      enrolled and set up: the client hears of it only after its own service is asked for the key again. */
  lemma RemoveLosesTheNextProvider(w: World, s: Srv, t: Srv, c: Client, k: Key, v: Val, v': Val)
    requires s in w.services && t in w.services && s != t && w.services[s].op.Idle? && w.services[t].op.Idle?
    requires w.services[s].queue == [] && w.services[s].subs - {k} != {}
    requires Inv(w) && c.home == s && c in w.up && Values(w, k) == {v} && v != v' && (c, k, v') !in w.told
    ensures var acts := FetchRemoveUpdate(s, c, k, v) + Whole(t, InsExists(k, v'), 5);
            && Possible(w, acts)
            && var u := After(w, acts);
               && (k, v') in u.values && (k, c) in u.clients && c in u.up
               && s in u.services && u.services[s].op.Idle? && !Served(u, c, k, v')
               && forall more :: Possible(u, more) && (forall i :: 0 <= i < |more| ==> !Asks(more[i], s, k)) ==>
                    (c, k, v') !in After(u, more).told
  {
    RemoveLosesSubscription(w, s, c, k, v);
    hide Steps, FetchRemoveUpdate, Possible, After;
    var u := After(w, FetchRemoveUpdate(s, c, k, v));
    ValuesHold(w, k);
    WholeRuns(u, t, InsExists(k, v'), 5);
    InsertAlone(u, t, k, v');
    AfterMore(w, FetchRemoveUpdate(s, c, k, v), Whole(t, InsExists(k, v'), 5));
    var last := After(u, Whole(t, InsExists(k, v'), 5));
    RunKeepsInv(w, FetchRemoveUpdate(s, c, k, v) + Whole(t, InsExists(k, v'), 5));
    hide Inv;
    forall more | Possible(last, more) && (forall i :: 0 <= i < |more| ==> !Asks(more[i], s, k))
      ensures (c, k, v') !in After(last, more).told
    {
      DeafUntilAsked(last, more, s, k);
    }
  }

  /** Two services, one of them also subscribed to another key, and a client of it. */
  ghost function TwoHosts(c: Client): World {
    World({("k", "v")}, {}, map[0 := Service({"j"}, [], Idle), 1 := Service({}, [], Idle)], {c}, {}, {})
  }

  lemma TwoHostsBegin(c: Client)
    ensures var w := TwoHosts(c);
            && Begins(w) && Inv(w) && Values(w, "k") == {"v"} && c in w.up && w.told == {}
            && 0 in w.services && 1 in w.services && w.services[0] == Service({"j"}, [], Idle) && w.services[1].op.Idle?
  {
    ValuesHold(TwoHosts(c), "k");
  }

  /** Such worlds exist. */
  lemma ProvidersDoGetLost()
    ensures exists w, acts, c, k, v ::
              && Begins(w) && Possible(w, acts)
              && var u := After(w, acts);
                 && (k, v) in u.values && (k, c) in u.clients && c in u.up
                 && c.home in u.services && u.services[c.home].op.Idle? && !Served(u, c, k, v)
  {
    hide *;
    var c := Client("c", 0);
    TwoHostsBegin(c);
    assert "j" in Service({"j"}, [], Idle).subs - {"k"};
    RemoveLosesTheNextProvider(TwoHosts(c), 0, 1, c, "k", "v", "w");
  }
}
