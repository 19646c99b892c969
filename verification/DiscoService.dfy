/**
  The discovery service of one host (src/riaps/discd/discs.py) over the shared database
  (src/riaps/discd/dbase_redis.py): which entries its clients own, and who is told of a provider.
  Every method is tied to a function on Books; what the service is for is proved about those.
 */
module DiscoServices {
  import opened Wrappers
  import opened DiscoNames

  type Entry = (string, string)  // (key, value) of a provider, or (key, client id) of a consumer

  /** The database sets, the keys the server subscribed to, and what each actor made it store. */
  datatype Books = Books(
    values: set<Entry>, clients: set<Entry>, subs: set<string>,
    regs: map<string, set<Entry>>, enrs: map<string, set<Entry>>)

  // ---------------------------------------------------------------- what each request does to the books

  function Under(s: set<Entry>, key: string): set<string> {
    set e | e in s && e.0 == key :: e.1
  }

  /** srem, and delSub when nothing is left under the key. */
  function Removed(b: Books, e: Entry): Books {
    var values := b.values - {e};
    b.(values := values, subs := if Under(values, e.0) == {} then b.subs - {e.0} else b.subs)
  }

  function SetUp(b: Books, actor: string): Books {
    b.(regs := b.regs[actor := {}], enrs := b.enrs[actor := {}])
  }

  /** The keys that lose their last value with these entries. */
  function Emptied(values: set<Entry>, gone: set<Entry>): set<string> {
    set e | e in gone && Under(values - gone, e.0) == {} :: e.0
  }

  function TearDown(b: Books, actor: string): Books
    requires actor in b.regs && actor in b.enrs
  {
    Books(b.values - b.regs[actor], b.clients - b.enrs[actor], b.subs - Emptied(b.values, b.regs[actor]),
          b.regs - {actor}, b.enrs - {actor})
  }

  /** The database is changed before an unknown actor raises KeyError. */
  function Register(b: Books, actor: string, e: Entry): Books {
    b.(values := b.values + {e}, regs := if actor in b.regs then b.regs[actor := b.regs[actor] + {e}] else b.regs)
  }

  function Unregister(b: Books, actor: string, e: Entry): Books {
    Removed(b, e).(regs := if actor in b.regs then b.regs[actor := b.regs[actor] - {e}] else b.regs)
  }

  function Enroll(b: Books, actor: string, e: Entry): Books {
    b.(clients := b.clients + {e}, subs := b.subs + {e.0},
    enrs := if actor in b.enrs then b.enrs[actor := b.enrs[actor] + {e}] else b.enrs)
  }

  function Unenroll(b: Books, actor: string, e: Entry): Books {
    b.(clients := b.clients - {e}, enrs := if actor in b.enrs then b.enrs[actor := b.enrs[actor] - {e}] else b.enrs)
  }

  // ---------------------------------------------------------------- notifications to consumers

  datatype PortUpdate = PortUpdate(
    actorHost: string, actorName: string, instanceName: string, portName: string, scope: Scope,
    host: string, port: nat)

  /** The message for one client id: only clients that are set up here, on this host, are told. */
  function Delivery(up: set<string>, here: string, at: (string, nat), id: string): seq<PortUpdate>
  {
    match ParseClient(id)
    case None => []
    case Some(c) =>
      if BaseKey(c.app, c.actor) in up && here == c.host
      then [PortUpdate(c.host, c.actor, c.instance, c.port, c.scope, at.0, at.1)] else []
  }

  function Deliveries(up: set<string>, here: string, at: (string, nat), ids: seq<string>): seq<PortUpdate> {
    if ids == [] then [] else Delivery(up, here, at, ids[0]) + Deliveries(up, here, at, ids[1..])
  }

  /** handleUpdate raises on a client id that does not parse, and where it is about to send a port that is no number;
      what was sent before stays sent. */
  datatype Sending = Sending(sent: seq<PortUpdate>, ok: bool)

  function Sends(up: set<string>, here: string, at: (string, string), ids: seq<string>): Sending {
    if ids == [] then Sending([], true)
    else
      match ParseClient(ids[0])
      case None => Sending([], false)
      case Some(c) =>
        if BaseKey(c.app, c.actor) !in up || here != c.host then Sends(up, here, at, ids[1..])
        else
          match Number(at.1)
          case None => Sending([], false)
          case Some(port) =>
            var rest := Sends(up, here, at, ids[1..]);
            Sending([PortUpdate(c.host, c.actor, c.instance, c.port, c.scope, at.0, port)] + rest.sent, rest.ok)
  }

  /** The id can be handled: it parses, and the port is a number if the client is here. */
  predicate Usable(up: set<string>, here: string, at: (string, string), id: string) {
    match ParseClient(id)
    case None => false
    case Some(c) => BaseKey(c.app, c.actor) in up && here == c.host ==> Number(at.1).Some?
  }

  function FirstUnusable(up: set<string>, here: string, at: (string, string), ids: seq<string>): nat {
    if ids == [] || !Usable(up, here, at, ids[0]) then 0 else 1 + FirstUnusable(up, here, at, ids[1..])
  }

  /** The clients before the first id that cannot be handled are told, no client after it. */
  lemma {:induction false} SendsUpToUnusable(up: set<string>, here: string, at: (string, string), ids: seq<string>)
    ensures FirstUnusable(up, here, at, ids) <= |ids|
    ensures Sends(up, here, at, ids).ok <==> FirstUnusable(up, here, at, ids) == |ids|
    ensures Sends(up, here, at, ids).ok <==> forall i :: 0 <= i < |ids| ==> Usable(up, here, at, ids[i])
    ensures Sends(up, here, at, ids).sent ==
            match Number(at.1)
            case None => []
            case Some(port) => Deliveries(up, here, (at.0, port), ids[..FirstUnusable(up, here, at, ids)])
  {
    hide ParseClient, Number, BaseKey;
    if ids != [] {
      SendsUpToUnusable(up, here, at, ids[1..]);
      var n := FirstUnusable(up, here, at, ids);
      if Usable(up, here, at, ids[0]) {
        assert ids[..n][0] == ids[0] && ids[..n][1..] == ids[1..][..n - 1];
        assert forall i :: 0 < i < |ids| ==> ids[i] == ids[1..][i - 1];
      }
    }
  }

  // ---------------------------------------------------------------- the database

  /** smembers and iteration over a set: every element once, in some order. */
  method Listed<T(==)>(s: set<T>) returns (l: seq<T>)
    ensures forall x :: x in l <==> x in s
    ensures |l| == |s|
  {
    l := [];
    var rest := s;
    while rest != {}
      invariant rest <= s && forall x :: x in l <==> x in s - rest
      invariant |l| + |rest| == |s|
      decreases rest
    {
      var x :| x in rest;
      l := l + [x];
      rest := rest - {x};
    }
  }

  /** The database as one service sees it: its sets, the keys the service subscribed to, the notifications at hand. */
  datatype Db = Db(values: set<Entry>, clients: set<Entry>, subs: set<string>, notes: seq<string>)

  function Reported(d: Db, key: string): Db {
    if key in d.subs then d.(notes := d.notes + [key]) else d
  }

  function Inserted(d: Db, key: string, value: string): Db {
    if (key, value) in d.values then d else Reported(d.(values := d.values + {(key, value)}), key)
  }

  function Fetched(d: Db, key: string, client: string): Db {
    d.(subs := d.subs + {key}, clients := d.clients + {(key, client)})
  }

  function Dropped(d: Db, key: string, value: string): Db {
    var r := if (key, value) in d.values then Reported(d.(values := d.values - {(key, value)}), key) else d;
    if Under(r.values, key) == {} then r.(subs := r.subs - {key}) else r
  }

  /** The clients of the entry's key, none if the value was known. */
  ghost predicate ToTell(ids: seq<string>, d: Db, e: Entry) {
    forall c :: c in ids <==> e !in d.values && (e.0, c) in d.clients
  }

  lemma DroppedIs(d: Db, key: string, value: string)
    ensures var u, values := Dropped(d, key, value), d.values - {(key, value)};
            && u.values == values && u.clients == d.clients
            && u.subs == (if Under(values, key) == {} then d.subs - {key} else d.subs)
            && u.notes == (if (key, value) in d.values && key in d.subs then d.notes + [key] else d.notes)
  {
    if (key, value) !in d.values { assert d.values - {(key, value)} == d.values; }
  }

  class RedisDbase {
    var values: set<Entry>
    var clients: set<Entry>
    var subKeys: set<string>
    var notes: seq<string>  // notifications that came in for subscribed keys

    constructor (values: set<Entry>, clients: set<Entry>)
      ensures this.values == values && this.clients == clients && subKeys == {} && notes == []
    {
      this.values, this.clients, this.subKeys, this.notes := values, clients, {}, [];
    }

    function Now(): Db
      reads this
    {
      Db(values, clients, subKeys, notes)
    }

    /** The database reports a changed key to its subscribers. */
    method Report(key: string)
      modifies this`notes
      ensures notes == if key in subKeys then old(notes) + [key] else old(notes)
    {
      if key in subKeys { notes := notes + [key]; }
    }

    method AddSub(newKey: string)
      modifies this`subKeys
      ensures subKeys == old(subKeys) + {newKey}
    {
      if newKey in subKeys { return; }
      subKeys := subKeys + {newKey};
    }

    method DelSub(key: string)
      modifies this`subKeys
      ensures subKeys == old(subKeys) - {key}
    {
      if key !in subKeys { return; }
      subKeys := subKeys - {key};
    }

    /** The clients to tell, none if the value was known. */
    method Insert(key: string, value: string) returns (toNotify: seq<string>)
      modifies this`values, this`notes
      ensures Now() == Inserted(old(Now()), key, value)
      ensures ToTell(toNotify, old(Now()), (key, value))
    {
      if (key, value) in values { return []; }
      values := values + {(key, value)};
      Report(key);
      toNotify := Listed(Under(clients, key));
      assert forall c :: c in Under(clients, key) <==> (key, c) in clients by { UnderHolds(clients, key); }
    }

    method Fetch(key: string, client: string) returns (found: seq<string>)
      modifies this`clients, this`subKeys
      ensures Now() == Fetched(old(Now()), key, client)
      ensures forall v :: v in found <==> (key, v) in values
    {
      AddSub(key);
      found := Listed(Under(values, key));
      UnderHolds(values, key);
      clients := clients + {(key, client)};
    }

    method Remove(key: string, value: string)
      modifies this`values, this`subKeys, this`notes
      ensures Now() == Dropped(old(Now()), key, value)
    {
      DroppedIs(Now(), key, value);
      if (key, value) in values { Report(key); }
      values := values - {(key, value)};
      var left := Listed(Under(values, key));
      if |left| == 0 { DelSub(key); }
    }

    /** The keys of the notifications at hand. get_message answers None when there is none left, and also
        once for every subscription that is confirmed: it hands out `available` of them here. */
    method DrainNotes(available: nat) returns (keys: seq<string>)
      requires available <= |notes|
      modifies this`notes
      ensures keys == old(notes)[..available] && notes == old(notes)[available..]
    {
      keys := [];
      while |keys| < available
        invariant |keys| <= available && keys == old(notes)[..|keys|] && notes == old(notes)[|keys|..]
      {
        keys := keys + [notes[0]];
        notes := notes[1..];
      }
    }

    /** Everything stored under the notified keys, each value with the clients to tell. */
    method FetchUpdates(available: nat) returns (res: seq<(string, string, seq<string>)>)
      requires available <= |notes|
      modifies this`notes
      ensures subKeys == {} ==> res == [] && notes == old(notes)
      ensures subKeys != {} ==> notes == old(notes)[available..]
      ensures subKeys != {} ==> forall k, v :: k in old(notes)[..available] && (k, v) in values ==>
                                  exists i :: 0 <= i < |res| && res[i].0 == k && res[i].1 == v
      ensures forall i :: 0 <= i < |res| ==>
                && res[i].0 in old(notes)[..available] && (res[i].0, res[i].1) in values
                && forall c :: c in res[i].2 <==> (res[i].0, c) in clients
    {
      res := [];
      if subKeys == {} { return; }
      var keys := DrainNotes(available);
      for j := 0 to |keys|
        invariant notes == old(notes)[available..]
        invariant forall k, v :: k in keys[..j] && (k, v) in values ==>
                    exists i :: 0 <= i < |res| && res[i].0 == k && res[i].1 == v
        invariant forall i :: 0 <= i < |res| ==>
                    && res[i].0 in keys && (res[i].0, res[i].1) in values
                    && forall c :: c in res[i].2 <==> (res[i].0, c) in clients
      {
        var more := UpdatesOf(keys[j]);
        ghost var before := res;
        res := res + more;
        forall k, v | k in keys[..j + 1] && (k, v) in values
          ensures exists i :: 0 <= i < |res| && res[i].0 == k && res[i].1 == v
        {
          if k in keys[..j] {
            var i :| 0 <= i < |before| && before[i].0 == k && before[i].1 == v;
            assert res[i] == before[i];
          } else {
            var i :| 0 <= i < |more| && more[i].0 == k && more[i].1 == v;
            assert res[|before| + i] == more[i];
          }
        }
      }
      assert keys[..|keys|] == keys;
    }

    method UpdatesOf(key: string) returns (res: seq<(string, string, seq<string>)>)
      ensures forall v :: (key, v) in values ==> exists i :: 0 <= i < |res| && res[i].0 == key && res[i].1 == v
      ensures forall i :: 0 <= i < |res| ==>
                && res[i].0 == key && (key, res[i].1) in values && forall c :: c in res[i].2 <==> (key, c) in clients
    {
      var found := Listed(Under(values, key));
      var toNotify := Listed(Under(clients, key));
      UnderHolds(values, key);
      UnderHolds(clients, key);
      res := seq(|found|, i requires 0 <= i < |found| => (key, found[i], toNotify));
      forall v | (key, v) in values ensures exists i :: 0 <= i < |res| && res[i].0 == key && res[i].1 == v {
        var i :| 0 <= i < |found| && found[i] == v;
        assert res[i].1 == v;
      }
    }

    method Detach(key: string, target: string)
      modifies this`clients
      ensures clients == old(clients) - {(key, target)}
    {
      clients := clients - {(key, target)};
    }
  }

  lemma UnderHolds(s: set<Entry>, key: string)
    ensures forall v :: v in Under(s, key) <==> (key, v) in s
  {
  }

  // ---------------------------------------------------------------- the service

  /** What the client table holds: the socket of a client, its port under two more names, an empty list. */
  datatype Slot = Socket(port: nat) | Port(port: nat) | NoNames

  datatype Reply = Done | Raised

  /** The table names of different clients differ, and none is an actor key. */
  lemma TableNamesDiffer(app: string, actor: string, end: string, app': string, actor': string, end': string)
    requires '/' !in app && '/' !in actor && '/' !in end && '/' !in app' && '/' !in actor' && '/' !in end'
    ensures BaseKey(app, actor) + end == BaseKey(app', actor') + end' <==> app == app' && actor == actor' && end == end'
    ensures BaseKey(app, actor) + end != ActorKey(app', actor')
  {
    hide Split;
    TableNameSplits(app, actor, end);
    TableNameSplits(app', actor', end');
    SplitPlain(app', '/');
    SplitSlash(app', actor');
    assert Split(ActorKey(app', actor'), '/') == [app', actor'];
    var parts, parts' := Split(BaseKey(app, actor) + end, '/'), Split(BaseKey(app', actor') + end', '/');
    assert parts[1] == app && parts[2] == actor && parts[3] == end;
    assert parts'[1] == app' && parts'[2] == actor' && parts'[3] == end';
  }

  lemma TableNameSplits(app: string, actor: string, end: string)
    requires '/' !in app && '/' !in actor && '/' !in end
    ensures Split(BaseKey(app, actor) + end, '/') == ["", app, actor, end]
  {
    hide Split;
    SplitPlain("", '/');
    SplitSlash("", app);
    SplitSlash("/" + app, actor);
    SplitSlash("/" + app + "/" + actor, end);
    assert "" + "/" + app == "/" + app;
  }

  /** The names of one client in the tables, against those of all the others. */
  lemma NamesOf(app: string, actor: string, end: string)
    requires '/' !in app && '/' !in actor && '/' !in end && end != ""
    ensures forall a, b :: '/' !in a && '/' !in b ==>
              && (BaseKey(a, b) == BaseKey(app, actor) <==> a == app && b == actor)
              && (ActorKey(a, b) == ActorKey(app, actor) <==> a == app && b == actor)
              && BaseKey(a, b) != BaseKey(app, actor) + end && BaseKey(a, b) != ActorKey(app, actor)
  {
    forall a, b | '/' !in a && '/' !in b
      ensures BaseKey(a, b) == BaseKey(app, actor) <==> a == app && b == actor
      ensures ActorKey(a, b) == ActorKey(app, actor) <==> a == app && b == actor
      ensures BaseKey(a, b) != BaseKey(app, actor) + end && BaseKey(a, b) != ActorKey(app, actor)
    {
      ActorKeysDiffer(a, b, app, actor);
      BaseIsName(a, b);
      TableNamesDiffer(a, b, "", app, actor, end);
    }
  }

  lemma BaseIsName(app: string, actor: string)
    ensures BaseKey(app, actor) + "" == BaseKey(app, actor)
  {
  }

  /** The tables of a server name exactly the actors that are set up. */
  ghost predicate Tabled(mac: string, host: string, actors: set<string>, names: set<string>, up: set<(string, string)>) {
    && '/' !in mac && '/' !in host && mac != "" && host != "" && mac != host
    && (forall u :: u in up ==>
          && '/' !in u.0 && '/' !in u.1 && ActorKey(u.0, u.1) in actors
          && BaseKey(u.0, u.1) in names && BaseKey(u.0, u.1) + mac in names && BaseKey(u.0, u.1) + host in names)
    && (forall app, actor :: '/' !in app && '/' !in actor && (app, actor) !in up ==>
          BaseKey(app, actor) !in names && ActorKey(app, actor) !in actors)
  }

  lemma SetupIsTabled(
      mac: string, host: string, actors: set<string>, names: set<string>, up: set<(string, string)>, app: string, actor: string)
    requires Tabled(mac, host, actors, names, up) && '/' !in app && '/' !in actor
    ensures var base, key := BaseKey(app, actor), ActorKey(app, actor);
            && Tabled(mac, host, actors + {key}, names + {base, base + mac, base + host, key}, up + {(app, actor)})
            && base != base + mac && base != base + host && base + mac != base + host
            && key != base && key != base + mac && key != base + host
  {
    NamesOf(app, actor, mac);
    NamesOf(app, actor, host);
    TableNamesDiffer(app, actor, mac, app, actor, host);
    TableNamesDiffer(app, actor, mac, app, actor, mac);
    TableNamesDiffer(app, actor, host, app, actor, host);
    hide BaseKey, ActorKey;
  }

  /** Nothing of another actor is among the names of this one. */
  lemma UnsetupIsTabled(
      mac: string, host: string, actors: set<string>, names: set<string>, up: set<(string, string)>, app: string, actor: string)
    requires Tabled(mac, host, actors, names, up) && '/' !in app && '/' !in actor
    ensures var base, key := BaseKey(app, actor), ActorKey(app, actor);
            && (base in names <==> (app, actor) in up)
            && ((app, actor) in up ==> {base, base + mac, base + host} <= names && key in actors)
            && Tabled(mac, host, actors - {key}, names - {base, base + mac, base + host}, up - {(app, actor)})
  {
    NamesOf(app, actor, mac);
    NamesOf(app, actor, host);
    var base := BaseKey(app, actor);
    forall u | u in up && u != (app, actor)
      ensures BaseKey(u.0, u.1) !in {base, base + mac, base + host}
      ensures BaseKey(u.0, u.1) + mac !in {base, base + mac, base + host}
      ensures BaseKey(u.0, u.1) + host !in {base, base + mac, base + host}
    {
      BaseIsName(app, actor);
      OtherEnds(u.0, u.1, mac, app, actor, mac, host);
      OtherEnds(u.0, u.1, host, app, actor, mac, host);
    }
    hide BaseKey, ActorKey;
  }

  lemma OtherEnds(a: string, b: string, end: string, app: string, actor: string, mac: string, host: string)
    requires '/' !in a && '/' !in b && '/' !in end && '/' !in app && '/' !in actor && '/' !in mac && '/' !in host
    requires (a, b) != (app, actor)
    ensures BaseKey(a, b) + end !in {BaseKey(app, actor), BaseKey(app, actor) + mac, BaseKey(app, actor) + host}
  {
    BaseIsName(app, actor);
    TableNamesDiffer(a, b, end, app, actor, "");
    TableNamesDiffer(a, b, end, app, actor, mac);
    TableNamesDiffer(a, b, end, app, actor, host);
  }

  class DiscoService {
    const mac: string
    const host: string
    const dbase: RedisDbase
    var registrations: map<string, set<Entry>>
    var enrollments: map<string, set<Entry>>
    var clients: map<string, Slot>
    var devices: set<string>
    var clientUpdates: seq<(string, string, seq<string>)>
    var sent: seq<PortUpdate>

    ghost var up: set<(string, string)>  // the actors that are set up

    function Me(): Server
      reads this`devices
    {
      Server(mac, host, devices)
    }

    function View(): Books
      reads this, dbase
    {
      Books(dbase.values, dbase.clients, dbase.subKeys, registrations, enrollments)
    }

    ghost predicate Valid()
      reads this
    {
      registrations.Keys == enrollments.Keys && Tabled(mac, host, registrations.Keys, clients.Keys, up)
    }

    constructor (mac: string, host: string, dbase: RedisDbase)
      requires '/' !in mac && '/' !in host && mac != "" && host != "" && mac != host
      ensures Valid() && up == {} && this.mac == mac && this.host == host && this.dbase == dbase
      ensures registrations == map[] && enrollments == map[]
    {
      this.mac, this.host, this.dbase := mac, host, dbase;
      registrations, enrollments, clients, devices, clientUpdates, sent, up := map[], map[], map[], {}, [], [], {};
    }

    method AddTables(base: string, key: string, port: nat)
      modifies this`registrations, this`enrollments, this`clients
      ensures registrations == old(registrations)[key := {}] && enrollments == old(enrollments)[key := {}]
      ensures clients == old(clients)[base := Socket(port)][base + mac := Port(port)][base + host := Port(port)][key := NoNames]
    {
      clients := clients[base := Socket(port)][base + mac := Port(port)][base + host := Port(port)][key := NoNames];
      registrations := registrations[key := {}];
      enrollments := enrollments[key := {}];
    }

    method SetupClient(app: string, actor: string, isDevice: bool, port: nat)
      requires Valid() && '/' !in app && '/' !in actor
      modifies this`registrations, this`enrollments, this`clients, this`devices, this`up
      ensures Valid() && up == old(up) + {(app, actor)}
      ensures View() == SetUp(old(View()), ActorKey(app, actor))
      ensures devices == old(devices) + if isDevice then {BaseKey(app, actor)} else {}
      ensures BaseKey(app, actor) + mac in clients && clients[BaseKey(app, actor) + mac] == Port(port)
    {
      hide Tabled, BaseKey, ActorKey;
      SetupIsTabled(mac, host, registrations.Keys, clients.Keys, up, app, actor);
      var base, key := BaseKey(app, actor), ActorKey(app, actor);
      ghost var names := clients.Keys + {base, base + mac, base + host, key};
      if isDevice { devices := devices + {base}; }
      AddTables(base, key, port);
      up := up + {(app, actor)};
      assert clients.Keys == names;
      assert registrations.Keys == old(registrations).Keys + {key};
    }

    /** dbase.remove for everything the actor registered. */
    method RemoveServices(key: string)
      requires key in registrations
      modifies dbase`values, dbase`subKeys, dbase`notes
      ensures dbase.values == old(dbase.values) - registrations[key]
      ensures dbase.subKeys == old(dbase.subKeys) - Emptied(old(dbase.values), registrations[key])
    {
      hide Under, Emptied, Dropped;
      ghost var values := dbase.values;
      ghost var gone: set<Entry> := {};
      var entries := Listed(registrations[key]);
      NothingEmptied(values);
      for i := 0 to |entries|
        invariant gone == set j | 0 <= j < i :: entries[j]
        invariant dbase.values == values - gone
        invariant dbase.subKeys == old(dbase.subKeys) - Emptied(values, gone)
      {
        EmptiedMore(values, gone, entries[i]);
        gone := gone + {entries[i]};
        DroppedIs(dbase.Now(), entries[i].0, entries[i].1);
        dbase.Remove(entries[i].0, entries[i].1);
        assert dbase.values == values - gone;
      }
      assert gone == registrations[key] by {
        assert forall x :: x in entries <==> x in registrations[key];
      }
    }

    /** dbase.detach for everything the actor looked up. */
    method DetachLookups(key: string)
      requires key in enrollments
      modifies dbase`clients
      ensures dbase.clients == old(dbase.clients) - enrollments[key]
    {
      var entries := Listed(enrollments[key]);
      for i := 0 to |entries|
        invariant dbase.clients == old(dbase.clients) - set j | 0 <= j < i :: entries[j]
      {
        dbase.Detach(entries[i].0, entries[i].1);
      }
      assert (set j | 0 <= j < |entries| :: entries[j]) == enrollments[key] by {
        assert forall x :: x in entries <==> x in enrollments[key];
      }
    }

    /** The port of the client, or None (the source returns -1) if it is not set up. */
    method UnsetupClient(app: string, actor: string) returns (port: Option<nat>)
      requires Valid() && '/' !in app && '/' !in actor
      modifies this`registrations, this`enrollments, this`clients, this`devices, this`up, dbase
      ensures Valid() && up == old(up) - {(app, actor)}
      ensures (app, actor) !in old(up) ==> View() == old(View()) && devices == old(devices) && port.None?
      ensures (app, actor) in old(up) ==>
                && ActorKey(app, actor) in old(View()).regs && ActorKey(app, actor) in old(View()).enrs
                && View() == TearDown(old(View()), ActorKey(app, actor))
                && devices == old(devices) - {BaseKey(app, actor)}
                && BaseKey(app, actor) + mac in old(clients)
                && port == (match old(clients)[BaseKey(app, actor) + mac] case Port(p) => Some(p) case _ => None)
    {
      hide Tabled, BaseKey, ActorKey, Emptied;
      UnsetupIsTabled(mac, host, registrations.Keys, clients.Keys, up, app, actor);
      var base, key := BaseKey(app, actor), ActorKey(app, actor);
      if base !in clients {
        assert up - {(app, actor)} == up;
        return None;
      }
      port := match clients[base + mac] case Port(p) => Some(p) case _ => None;
      RemoveServices(key);
      DetachLookups(key);
      DropTables(base, key);
      up := up - {(app, actor)};
      assert registrations.Keys == old(registrations).Keys - {key};
      assert clients.Keys == old(clients).Keys - {base, base + mac, base + host};
    }

    method DropTables(base: string, key: string)
      requires registrations.Keys == enrollments.Keys
      modifies this`registrations, this`enrollments, this`clients, this`devices
      ensures registrations == old(registrations) - {key} && enrollments == old(enrollments) - {key}
      ensures clients == old(clients) - {base, base + mac, base + host}
      ensures devices == old(devices) - {base}
    {
      clients := clients - {base, base + mac, base + host};
      devices := devices - {base};
      registrations := registrations - {key};
      enrollments := enrollments - {key};
    }

    method HandleServiceReg(app: string, actor: string, msgType: string, kind: string, scope: Scope, at: string, port: nat)
        returns (reply: Reply)
      modifies this`registrations, this`clientUpdates, dbase`values, dbase`notes
      ensures match InsertKey(Me(), app, actor, msgType, kind, scope)
              case None => reply == Raised && View() == old(View()) && clientUpdates == old(clientUpdates)
              case Some(key) =>
                && View() == Register(old(View()), ActorKey(app, actor), (key, Endpoint(at, port)))
                && (reply == Done <==> ActorKey(app, actor) in old(registrations))
                && (clientUpdates == old(clientUpdates) || (reply == Done && |clientUpdates| == |old(clientUpdates)| + 1))
                && (reply == Done ==>
                      exists ids ::
                        && ToTell(ids, old(dbase.Now()), (key, Endpoint(at, port)))
                        && clientUpdates == old(clientUpdates) + if ids == [] then [] else [(key, Endpoint(at, port), ids)])
    {
      hide InsertKey, Endpoint, ActorKey, ToTell;
      var regKey := ActorKey(app, actor);
      var pair := InsertKey(Me(), app, actor, msgType, kind, scope);
      if pair.None? { return Raised; }
      var key, value := pair.value, Endpoint(at, port);
      var ids := dbase.Insert(key, value);
      if regKey !in registrations { return Raised; }
      registrations := registrations[regKey := registrations[regKey] + {(key, value)}];
      if |ids| != 0 { clientUpdates := clientUpdates + [(key, value, ids)]; }
      reply := Done;
    }

    method HandleServiceLookup(c: Client, msgType: string, kind: string) returns (reply: Reply, found: seq<string>)
      modifies this`enrollments, dbase`clients, dbase`subKeys
      ensures match LookupKey(Me(), c.app, c.actor, msgType, kind, c.scope)
              case None => reply == Raised && View() == old(View())
              case Some(key) =>
                && View() == Enroll(old(View()), ActorKey(c.app, c.actor), (key, ClientId(Me(), c)))
                && (reply == Done <==> ActorKey(c.app, c.actor) in old(enrollments))
                && (reply == Done ==> forall v :: v in found <==> (key, v) in dbase.values)
    {
      hide LookupKey, ClientId, ActorKey;
      found := [];
      var regKey, key := ActorKey(c.app, c.actor), LookupKey(Me(), c.app, c.actor, msgType, kind, c.scope);
      if key.None? { return Raised, []; }
      found := dbase.Fetch(key.value, ClientId(Me(), c));
      if regKey !in enrollments { return Raised, []; }
      enrollments := enrollments[regKey := enrollments[regKey] + {(key.value, ClientId(Me(), c))}];
      reply := Done;
    }

    method HandleServiceUnreg(app: string, actor: string, msgType: string, kind: string, scope: Scope, at: string, port: nat)
        returns (reply: Reply)
      modifies this`registrations, dbase`values, dbase`subKeys, dbase`notes
      ensures match InsertKey(Me(), app, actor, msgType, kind, scope)
              case None => reply == Raised && View() == old(View())
              case Some(key) =>
                && View() == Unregister(old(View()), ActorKey(app, actor), (key, Endpoint(at, port)))
                && (reply == Done <==> ActorKey(app, actor) in old(registrations))
    {
      hide InsertKey, Endpoint, ActorKey, Under, Dropped;
      var regKey := ActorKey(app, actor);
      var key := InsertKey(Me(), app, actor, msgType, kind, scope);
      if key.None? { return Raised; }
      DroppedIs(dbase.Now(), key.value, Endpoint(at, port));
      dbase.Remove(key.value, Endpoint(at, port));
      if regKey !in registrations { return Raised; }
      registrations := registrations[regKey := registrations[regKey] - {(key.value, Endpoint(at, port))}];
      reply := Done;
    }

    method HandleServiceUnlookup(c: Client, msgType: string, kind: string) returns (reply: Reply)
      modifies this`enrollments, dbase`clients
      ensures match LookupKey(Me(), c.app, c.actor, msgType, kind, c.scope)
              case None => reply == Raised && View() == old(View())
              case Some(key) =>
                && View() == Unenroll(old(View()), ActorKey(c.app, c.actor), (key, ClientId(Me(), c)))
                && (reply == Done <==> ActorKey(c.app, c.actor) in old(enrollments))
    {
      hide LookupKey, ClientId, ActorKey;
      var regKey, key := ActorKey(c.app, c.actor), LookupKey(Me(), c.app, c.actor, msgType, kind, c.scope);
      if key.None? { return Raised; }
      dbase.Detach(key.value, ClientId(Me(), c));
      if regKey !in enrollments { return Raised; }
      enrollments := enrollments[regKey := enrollments[regKey] - {(key.value, ClientId(Me(), c))}];
      reply := Done;
    }

    /** Tell the clients of one notification that are set up here. */
    method HandleUpdate(value: string, ids: seq<string>) returns (reply: Reply)
      modifies this`sent
      ensures match HostAndPort(value)
              case None => reply == Raised && sent == old(sent)
              case Some(at) =>
                && sent == old(sent) + Sends(clients.Keys, host, at, ids).sent
                && (reply == Done <==> Sends(clients.Keys, host, at, ids).ok)
    {
      hide HostAndPort, ParseClient, Number, BaseKey;
      if HostAndPort(value).None? { return Raised; }
      var at := HostAndPort(value).value;
      for i := 0 to |ids|
        invariant sent + Sends(clients.Keys, host, at, ids[i..]).sent == old(sent) + Sends(clients.Keys, host, at, ids).sent
        invariant Sends(clients.Keys, host, at, ids[i..]).ok == Sends(clients.Keys, host, at, ids).ok
      {
        assert ids[i..][1..] == ids[i + 1..];
        if ParseClient(ids[i]).None? { return Raised; }
        var c := ParseClient(ids[i]).value;
        if BaseKey(c.app, c.actor) !in clients { continue; }
        if host != c.host { continue; }
        if Number(at.1).None? { return Raised; }
        sent := sent + [PortUpdate(c.host, c.actor, c.instance, c.port, c.scope, at.0, Number(at.1).value)];
      }
      reply := Done;
    }
  }

  lemma NothingEmptied(values: set<Entry>)
    ensures Emptied(values, {}) == {}
  {
  }

  /** One more removal drops its own key if it was the last value there, and no other key. */
  lemma EmptiedMore(values: set<Entry>, gone: set<Entry>, e: Entry)
    ensures Emptied(values, gone + {e}) ==
            Emptied(values, gone) + if Under(values - gone - {e}, e.0) == {} then {e.0} else {}
  {
  }

  // ---------------------------------------------------------------- who is told

  lemma {:induction false} DeliveredOnce(up: set<string>, here: string, at: (string, nat), ids: seq<string>, u: PortUpdate)
    ensures u in Deliveries(up, here, at, ids) <==> exists id :: id in ids && u in Delivery(up, here, at, id)
  {
    hide Delivery;
    if ids != [] {
      DeliveredOnce(up, here, at, ids[1..], u);
      assert forall id :: id in ids <==> id == ids[0] || id in ids[1..];
      if u in Delivery(up, here, at, ids[0]) { assert ids[0] in ids; }
    }
  }

  /** A message is sent exactly for a client id in the list that names this host and an actor that is set up here, and
      it says what the id and the provider say. */
  lemma OnlyClientsHereAreTold(up: set<string>, here: string, at: (string, nat), ids: seq<string>, u: PortUpdate)
    ensures u in Deliveries(up, here, at, ids) <==>
            && u.actorHost == here && u.host == at.0 && u.port == at.1
            && exists id, app ::
                 && id in ids && BaseKey(app, u.actorName) in up
                 && ParseClient(id) == Some(Client(app, u.actorName, here, u.instanceName, u.portName, u.scope))
  {
    hide ParseClient, BaseKey;
    DeliveredOnce(up, here, at, ids, u);
    if u in Deliveries(up, here, at, ids) {
      var id :| id in ids && u in Delivery(up, here, at, id);
      var c := ParseClient(id).value;
      assert c == Client(c.app, u.actorName, here, u.instanceName, u.portName, u.scope);
    }
  }

  /** A consumer that looked up a matching service, lives on this host and is still set up is told of every
      new provider, with the provider's host and port and its own instance, port and scope. */
  lemma NewProviderReachesConsumer(
      b: Books, sp: Server, app: string, actor: string, msgType: string, kind: string, scope: Scope, at: string, port: nat,
      sc: Server, c: Client, kind': string, up: set<string>, ids: seq<string>)
    requires Plain(app) && Plain(actor) && Plain(msgType) && Plain(kind) && Plain(sp.mac) && Plain(sc.mac) && ':' !in at
    requires Plain(c.app) && Plain(c.actor) && Plain(c.host) && Plain(c.instance) && Plain(c.port)
    requires InsertKey(sp, app, actor, msgType, kind, scope).Some? && LookupKey(sc, c.app, c.actor, msgType, kind', c.scope).Some?
    requires app == c.app && SameScope(scope, c.scope) && (kind', kind) in PAIRS
    requires scope.Local? || scope.Internal? ==> sp.mac == sc.mac
    requires scope.Internal? ==> exists owner :: OwnedBy(sp, app, actor, owner) && OwnedBy(sc, c.app, c.actor, owner)
    requires (LookupKey(sc, c.app, c.actor, msgType, kind', c.scope).value, ClientId(sc, c)) in b.clients
    requires var key := InsertKey(sp, app, actor, msgType, kind, scope).value;
             forall id :: id in ids <==> (key, id) in b.clients
    requires BaseKey(c.app, c.actor) in up && sc.host == c.host
    ensures ParseEndpoint(Endpoint(at, port)).Some?
    ensures PortUpdate(c.host, c.actor, c.instance, c.port, if c.scope.Unset? then Global else c.scope, at, port)
            in Deliveries(up, sc.host, ParseEndpoint(Endpoint(at, port)).value, ids)
  {
    hide InsertKey, LookupKey, Deliveries, ProviderKind, Owner, OwnedBy, Plain;
    ConsumerFindsProvider(sp, app, actor, msgType, kind, scope, sc, c.app, c.actor, msgType, kind', c.scope);
    EndpointRoundTrip(at, port);
    ClientRoundTrip(sc, c);
    hide ParseEndpoint, ParseClient, ClientId, Endpoint;
    DeliveredOnce(up, sc.host, (at, port), ids,
                  PortUpdate(c.host, c.actor, c.instance, c.port, if c.scope.Unset? then Global else c.scope, at, port));
  }

  // ---------------------------------------------------------------- who owns what

  ghost function Union(m: map<string, set<Entry>>): set<Entry> {
    set a, e | a in m && e in m[a] :: e
  }

  /** No entry belongs to two actors, or to an actor and another server. */
  ghost predicate Separate(m: map<string, set<Entry>>, foreign: set<Entry>) {
    && (forall a, e :: a in m && e in m[a] ==> e !in foreign)
    && (forall a, b, e :: a in m && b in m && a != b && e in m[a] ==> e !in m[b])
  }

  ghost predicate Accounted(stored: set<Entry>, m: map<string, set<Entry>>, foreign: set<Entry>) {
    stored == foreign + Union(m) && Separate(m, foreign)
  }

  /** The database holds what other servers stored and what the actors here made this one store. */
  ghost predicate Owned(b: Books, values: set<Entry>, clients: set<Entry>) {
    Accounted(b.values, b.regs, values) && Accounted(b.clients, b.enrs, clients)
  }

  /** Whether somebody else owns the entry. */
  ghost predicate Elsewhere(m: map<string, set<Entry>>, foreign: set<Entry>, actor: string, e: Entry) {
    e in foreign || exists a :: a in m && a != actor && e in m[a]
  }

  /** Storing an entry for an actor keeps the account exactly if nobody else owns the entry. */
  lemma AddKeepsAccount(stored: set<Entry>, m: map<string, set<Entry>>, foreign: set<Entry>, actor: string, e: Entry)
    requires Accounted(stored, m, foreign)
    ensures var m' := if actor in m then m[actor := m[actor] + {e}] else m;
            Accounted(stored + {e}, m', foreign) <==>
            if actor in m then !Elsewhere(m, foreign, actor, e) else e in stored
  {
    var m' := if actor in m then m[actor := m[actor] + {e}] else m;
    forall x ensures x in Union(m') <==> x in Union(m) || (x == e && actor in m) {
      if x in Union(m) { var a :| a in m && x in m[a]; assert x in m'[a]; }
      if x == e && actor in m { assert x in m'[actor]; }
    }
    if actor in m {
      assert e in m'[actor];
      assert forall a :: a in m && a != actor ==> m'[a] == m[a];
      if Accounted(stored + {e}, m', foreign) {
        forall a | a in m && a != actor ensures e !in m[a] { assert e !in m'[a]; }
      }
    }
  }

  /** Taking an entry away on behalf of an actor keeps the account exactly if nobody else owns the entry. */
  lemma DropKeepsAccount(stored: set<Entry>, m: map<string, set<Entry>>, foreign: set<Entry>, actor: string, e: Entry)
    requires Accounted(stored, m, foreign)
    ensures var m' := if actor in m then m[actor := m[actor] - {e}] else m;
            Accounted(stored - {e}, m', foreign) <==> !Elsewhere(m, foreign, actor, e)
  {
    var m' := if actor in m then m[actor := m[actor] - {e}] else m;
    forall x ensures x in Union(m') <==> x in Union(m) && (x != e || exists a :: a in m && a != actor && e in m[a]) {
      if a :| a in m && x in m[a] && (x != e || a != actor) { assert x in m'[a]; }
    }
  }

  /** Forgetting an actor's set without cleaning up keeps the account exactly if the set was empty. */
  lemma ForgetKeepsAccount(stored: set<Entry>, m: map<string, set<Entry>>, foreign: set<Entry>, actor: string)
    requires Accounted(stored, m, foreign)
    ensures Accounted(stored, m[actor := {}], foreign) <==> (actor in m ==> m[actor] == {})
  {
    var m' := m[actor := {}];
    forall x ensures x in Union(m') <==> exists a :: a in m && a != actor && x in m[a] {
      if a :| a in m && a != actor && x in m[a] { assert x in m'[a]; }
    }
    if actor in m && m[actor] != {} {
      var x :| x in m[actor];
      assert x in Union(m);
    }
  }

  /** Cleaning up for an actor takes away exactly what it owned. */
  lemma CleanupKeepsAccount(stored: set<Entry>, m: map<string, set<Entry>>, foreign: set<Entry>, actor: string)
    requires Accounted(stored, m, foreign) && actor in m
    ensures Accounted(stored - m[actor], m - {actor}, foreign)
    ensures forall a :: a in m && a != actor ==> a in m - {actor} && (m - {actor})[a] == m[a] && m[a] <= stored - m[actor]
  {
    var m' := m - {actor};
    forall x ensures x in Union(m') <==> x in Union(m) && x !in m[actor] {
      if a :| a in m && x in m[a] && a != actor { assert x in m'[a]; }
    }
  }

  /** Other servers add and remove entries: the account stays exactly if these are not entries of actors here. */
  lemma AbroadKeepsAccount(stored: set<Entry>, m: map<string, set<Entry>>, foreign: set<Entry>, gone: set<Entry>, more: set<Entry>)
    requires Accounted(stored, m, foreign)
    ensures Accounted(stored - gone + more, m, foreign - gone + more) <==> Union(m) !! gone + more
  {
  }

  // ---------------------------------------------------------------- runs of requests

  datatype Request =
    | ActorReg(actor: string)
    | ActorUnreg(actor: string)
    | ServiceReg(actor: string, entry: Entry)
    | ServiceUnreg(actor: string, entry: Entry)
    | ServiceLookup(actor: string, entry: Entry)
    | ServiceUnlookup(actor: string, entry: Entry)
    | Abroad(goneValues: set<Entry>, moreValues: set<Entry>, goneClients: set<Entry>, moreClients: set<Entry>)

  /** The books here, and what other servers own of the database. */
  datatype Ledger = Ledger(b: Books, values: set<Entry>, clients: set<Entry>)

  ghost function Served(l: Ledger, r: Request): Ledger {
    match r
    case ActorReg(a) => l.(b := SetUp(l.b, a))
    case ActorUnreg(a) => if a in l.b.regs && a in l.b.enrs then l.(b := TearDown(l.b, a)) else l
    case ServiceReg(a, e) => l.(b := Register(l.b, a, e))
    case ServiceUnreg(a, e) => l.(b := Unregister(l.b, a, e))
    case ServiceLookup(a, e) => l.(b := Enroll(l.b, a, e))
    case ServiceUnlookup(a, e) => l.(b := Unenroll(l.b, a, e))
    case Abroad(gv, mv, gc, mc) =>
      Ledger(l.b.(values := l.b.values - gv + mv, clients := l.b.clients - gc + mc), l.values - gv + mv, l.clients - gc + mc)
  }

  ghost predicate Kept(l: Ledger) {
    Owned(l.b, l.values, l.clients)
  }

  /** Each entry belongs to one actor, and no actor registers again without unregistering. */
  ghost predicate Fit(l: Ledger, r: Request) {
    match r
    case ActorReg(a) => (a in l.b.regs ==> l.b.regs[a] == {}) && (a in l.b.enrs ==> l.b.enrs[a] == {})
    case ActorUnreg(a) => true
    case ServiceReg(a, e) => if a in l.b.regs then !Elsewhere(l.b.regs, l.values, a, e) else e in l.b.values
    case ServiceUnreg(a, e) => !Elsewhere(l.b.regs, l.values, a, e)
    case ServiceLookup(a, e) => if a in l.b.enrs then !Elsewhere(l.b.enrs, l.clients, a, e) else e in l.b.clients
    case ServiceUnlookup(a, e) => !Elsewhere(l.b.enrs, l.clients, a, e)
    case Abroad(gv, mv, gc, mc) => Union(l.b.regs) !! gv + mv && Union(l.b.enrs) !! gc + mc
  }

  /** One request keeps ownership exactly if it is fit. */
  lemma OwnershipKeptIfFit(l: Ledger, r: Request)
    requires Kept(l)
    ensures Kept(Served(l, r)) <==> Fit(l, r)
  {
    hide Accounted, Union, Elsewhere, Under, Emptied;
    var b := l.b;
    match r
    case ActorReg(a) =>
      ForgetKeepsAccount(b.values, b.regs, l.values, a);
      ForgetKeepsAccount(b.clients, b.enrs, l.clients, a);
    case ActorUnreg(a) =>
      if a in b.regs && a in b.enrs {
        CleanupKeepsAccount(b.values, b.regs, l.values, a);
        CleanupKeepsAccount(b.clients, b.enrs, l.clients, a);
      }
    case ServiceReg(a, e) => AddKeepsAccount(b.values, b.regs, l.values, a, e);
    case ServiceUnreg(a, e) => DropKeepsAccount(b.values, b.regs, l.values, a, e);
    case ServiceLookup(a, e) => AddKeepsAccount(b.clients, b.enrs, l.clients, a, e);
    case ServiceUnlookup(a, e) => DropKeepsAccount(b.clients, b.enrs, l.clients, a, e);
    case Abroad(gv, mv, gc, mc) =>
      AbroadKeepsAccount(b.values, b.regs, l.values, gv, mv);
      AbroadKeepsAccount(b.clients, b.enrs, l.clients, gc, mc);
  }

  ghost function ServedAll(l: Ledger, rs: seq<Request>): Ledger
    decreases |rs|
  {
    if rs == [] then l else ServedAll(Served(l, rs[0]), rs[1..])
  }

  ghost predicate AllFit(l: Ledger, rs: seq<Request>)
    decreases |rs|
  {
    rs != [] ==> Fit(l, rs[0]) && AllFit(Served(l, rs[0]), rs[1..])
  }

  /** Ownership holds after every run of fit requests. */
  lemma {:induction false} OwnershipOverRuns(l: Ledger, rs: seq<Request>)
    requires Kept(l) && AllFit(l, rs)
    ensures Kept(ServedAll(l, rs))
    decreases |rs|
  {
    hide Kept, Served, Fit;
    if rs != [] {
      OwnershipKeptIfFit(l, rs[0]);
      OwnershipOverRuns(Served(l, rs[0]), rs[1..]);
    }
  }

  /** Unregistering an actor removes its entries from the database, and nobody else's. */
  lemma UnsetupRemovesOwnEntries(l: Ledger, actor: string)
    requires Kept(l) && actor in l.b.regs && actor in l.b.enrs
    ensures var u := Served(l, ActorUnreg(actor)).b;
            && l.b.values - u.values == l.b.regs[actor] && l.b.clients - u.clients == l.b.enrs[actor]
            && l.values <= u.values && l.clients <= u.clients
            && (forall a :: a in l.b.regs && a != actor ==> a in u.regs && u.regs[a] == l.b.regs[a] && u.regs[a] <= u.values)
            && (forall a :: a in l.b.enrs && a != actor ==> a in u.enrs && u.enrs[a] == l.b.enrs[a] && u.enrs[a] <= u.clients)
  {
  }
}
