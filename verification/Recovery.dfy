/**
  The deployment manager and its application database (src/riaps/deplo/depm.py, appdb.py): what is recorded
  is what runs, and after a crash what was recorded is started again.
 */
module Recovery {
  import opened Wrappers

  type Pid = nat

  /** DeploActorCommand, as far as recovery needs it. */
  datatype Record = Record(app: string, model: string, actor: string, args: seq<string>, pid: Pid, isdevice: bool)

  /** DeploActorRecord */
  datatype Actor = Actor(app: string, model: string, actor: string, args: seq<string>)

  /** DeploDeviceRecord */
  datatype Device = Device(app: string, model: string, kind: string, inst: string, args: seq<string>)

  type Lists = map<string, seq<Record>>

  /** The name the discovery process is monitored under. */
  const DISCO := "riaps.disco"

  // ---------------------------------------------------------------- qualified names

  function Qual(app: string, actor: string): string {
    app + "." + actor
  }

  /** split('.', 1) */
  function Split1(s: string): Option<(string, string)> {
    if s == [] then None
    else if s[0] == '.' then Some(([], s[1..]))
    else
      match Split1(s[1..])
      case None => None
      case Some(p) => Some(([s[0]] + p.0, p.1))
  }

  /** Application names have no dot, so qualified names come apart again. */
  lemma {:induction false} QualSplits(app: string, actor: string)
    requires '.' !in app
    ensures Split1(Qual(app, actor)) == Some((app, actor))
  {
    var s := Qual(app, actor);
    if app == [] {
      assert s[1..] == actor;
    } else {
      QualSplits(app[1..], actor);
      assert s[1..] == Qual(app[1..], actor);
      assert [app[0]] + app[1..] == app;
    }
  }

  lemma QualsDiffer(app: string, actor: string, app': string, actor': string)
    requires '.' !in app && '.' !in app'
    ensures Qual(app, actor) == Qual(app', actor') <==> app == app' && actor == actor'
  {
    QualSplits(app, actor);
    QualSplits(app', actor');
  }

  // ---------------------------------------------------------------- lists of records

  /** Every record but those of the actor. */
  function Without(l: seq<Record>, actor: string): seq<Record> {
    if l == [] then []
    else (if l[0].actor != actor then [l[0]] else []) + Without(l[1..], actor)
  }

  /** No two running actors have the same name. */
  ghost predicate Once(l: seq<Record>) {
    forall i, j :: 0 <= i < j < |l| && !l[i].isdevice && !l[j].isdevice ==> l[i].actor != l[j].actor
  }

  lemma {:induction false} WithoutKeeps(l: seq<Record>, actor: string)
    ensures forall r :: r in Without(l, actor) <==> r in l && r.actor != actor
    ensures Once(l) ==> Once(Without(l, actor))
  {
    if l != [] {
      WithoutKeeps(l[1..], actor);
      assert l == [l[0]] + l[1..];
      if Once(l) {
        assert forall j :: 0 < j < |l| ==> l[j] == l[1..][j - 1];
        assert Once(l[1..]);
        forall r | r in l[1..] && !r.isdevice && !l[0].isdevice ensures r.actor != l[0].actor {
          var j :| 0 <= j < |l[1..]| && l[1..][j] == r;
          assert l[j + 1] == r;
        }
      }
    }
  }

  /** Each record stays or goes by itself, at its place. */
  lemma {:induction false} WithoutKeepsOrder(a: seq<Record>, b: seq<Record>, actor: string)
    ensures Without(a + b, actor) == Without(a, actor) + Without(b, actor)
  {
    hide Without;
    if a == [] {
      assert a + b == b;
      WithoutNone(actor);
    } else {
      var x: seq<Record> := if a[0].actor == actor then [] else [a[0]];
      var y, z := Without(a[1..], actor), Without(b, actor);
      assert (a + b)[1..] == a[1..] + b && (a + b)[0] == a[0];
      WithoutFirst(a, actor);
      WithoutFirst(a + b, actor);
      WithoutKeepsOrder(a[1..], b, actor);
      Regroup(x, y, z);
    }
  }

  lemma Regroup(x: seq<Record>, y: seq<Record>, z: seq<Record>)
    ensures x + y + z == x + (y + z)
  {
  }

  lemma WithoutNone(actor: string)
    ensures Without([], actor) == []
  {
  }

  lemma WithoutFirst(l: seq<Record>, actor: string)
    requires l != []
    ensures Without(l, actor) == (if l[0].actor == actor then [] else [l[0]]) + Without(l[1..], actor)
  {
  }

  lemma OnceMore(l: seq<Record>, r: Record)
    requires Once(l)
    ensures Once(l + [r]) <==> r.isdevice || forall x :: x in l && !x.isdevice ==> x.actor != r.actor
  {
    var m := l + [r];
    if Once(m) && !r.isdevice {
      forall x | x in l && !x.isdevice ensures x.actor != r.actor {
        var i :| 0 <= i < |l| && l[i] == x;
        assert m[i] == x && m[|l|] == r;
      }
    }
  }

  // ---------------------------------------------------------------- records and running actors

  function ListOf(lists: Lists, app: string): seq<Record> {
    if app in lists then lists[app] else []
  }

  /** The record of a running actor that is not a device. */
  ghost predicate Recorded(lists: Lists, r: Record) {
    r in ListOf(lists, r.app) && !r.isdevice
  }

  function ActorOf(r: Record): Actor {
    Actor(r.app, r.model, r.actor, r.args)
  }

  ghost predicate ListOk(lists: Lists, app: string) {
    app in lists ==> '.' !in app && Once(lists[app]) && forall r :: r in lists[app] ==> r.app == app
  }

  /** The actor under this name has a record, and that says how it was started. */
  ghost predicate ActorOk(lists: Lists, actors: map<string, Actor>, k: string) {
    k in actors ==>
      var a := actors[k];
      '.' !in a.app && k == Qual(a.app, a.actor) && exists r :: Recorded(lists, r) && ActorOf(r) == a
  }

  ghost predicate RecordOk(actors: map<string, Actor>, r: Record) {
    Qual(r.app, r.actor) in actors && actors[Qual(r.app, r.actor)] == ActorOf(r)
  }

  /** The records that are not of devices are exactly the running actors, one record each. */
  ghost predicate Agree(lists: Lists, actors: map<string, Actor>) {
    && (forall app :: ListOk(lists, app))
    && (forall k :: ActorOk(lists, actors, k))
    && (forall r :: Recorded(lists, r) ==> RecordOk(actors, r))
  }

  /** Starting an actor that does not run keeps the agreement, starting one that runs does not. */
  lemma StartAgrees(lists: Lists, actors: map<string, Actor>, r: Record)
    requires Agree(lists, actors) && !r.isdevice && '.' !in r.app
    ensures var k := Qual(r.app, r.actor);
            Agree(lists[r.app := ListOf(lists, r.app) + [r]], actors[k := ActorOf(r)]) <==> k !in actors
  {
    var k, l := Qual(r.app, r.actor), ListOf(lists, r.app);
    var lists', actors' := lists[r.app := l + [r]], actors[k := ActorOf(r)];
    assert ListOk(lists, r.app);
    OnceMore(l, r);
    forall x ensures Recorded(lists', x) <==> Recorded(lists, x) || x == r {}
    if k in actors {
      assert ActorOk(lists, actors, k);
      var x :| Recorded(lists, x) && ActorOf(x) == actors[k];
      QualsDiffer(x.app, x.actor, r.app, r.actor);
      assert !Once(l + [r]);
      assert !ListOk(lists', r.app);
    } else {
      forall x | x in l && !x.isdevice ensures x.actor != r.actor {
        assert Recorded(lists, x) && RecordOk(actors, x);
      }
      forall app ensures ListOk(lists', app) { assert ListOk(lists, app); }
      forall m ensures ActorOk(lists', actors', m) {
        assert ActorOk(lists, actors, m);
        if m == k {
          assert Recorded(lists', r);
        } else if m in actors {
          var x :| Recorded(lists, x) && ActorOf(x) == actors[m];
          assert Recorded(lists', x);
        }
      }
      forall x | Recorded(lists', x) ensures RecordOk(actors', x) {
        if x != r { assert RecordOk(actors, x); }
      }
    }
  }

  /** Stopping an actor takes away it and its record. */
  lemma StopAgrees(lists: Lists, actors: map<string, Actor>, app: string, actor: string)
    requires Agree(lists, actors) && '.' !in app
    ensures Agree(lists[app := Without(ListOf(lists, app), actor)], actors - {Qual(app, actor)})
  {
    var k, l := Qual(app, actor), ListOf(lists, app);
    var lists', actors' := lists[app := Without(l, actor)], actors - {k};
    WithoutKeeps(l, actor);
    forall x ensures Recorded(lists', x) <==> Recorded(lists, x) && !(x.app == app && x.actor == actor) {}
    forall a ensures ListOk(lists', a) { assert ListOk(lists, a) && ListOk(lists, app); }
    forall m ensures ActorOk(lists', actors', m) {
      assert ActorOk(lists, actors, m);
      if m in actors' {
        var x :| Recorded(lists, x) && ActorOf(x) == actors[m];
        assert Recorded(lists', x);
      }
    }
    forall x | Recorded(lists', x) ensures RecordOk(actors', x) {
      assert RecordOk(actors, x) && ListOk(lists, x.app);
      QualsDiffer(x.app, x.actor, app, actor);
    }
  }

  lemma DropNothing(lists: Lists, actors: map<string, Actor>, app: string, actor: string)
    requires Agree(lists, actors) && '.' !in app && Qual(app, actor) !in actors
    ensures Agree(lists[app := Without(ListOf(lists, app), actor)], actors)
  {
    StopAgrees(lists, actors, app, actor);
    assert actors - {Qual(app, actor)} == actors;
  }

  /** Records of devices come and go without touching the agreement. */
  lemma DeviceAgrees(lists: Lists, actors: map<string, Actor>, r: Record)
    requires Agree(lists, actors) && r.isdevice && '.' !in r.app
    ensures Agree(lists[r.app := ListOf(lists, r.app) + [r]], actors)
  {
    var l := ListOf(lists, r.app);
    var lists' := lists[r.app := l + [r]];
    OnceMoreDevice(l, r);
    forall x ensures Recorded(lists', x) <==> Recorded(lists, x) {}
    forall a ensures ListOk(lists', a) { assert ListOk(lists, a) && ListOk(lists, r.app); }
    forall m ensures ActorOk(lists', actors, m) {
      assert ActorOk(lists, actors, m);
      if m in actors {
        var x :| Recorded(lists, x) && ActorOf(x) == actors[m];
        assert Recorded(lists', x);
      }
    }
    forall x | Recorded(lists', x) ensures RecordOk(actors, x) {
      assert RecordOk(actors, x);
    }
  }

  lemma OnceMoreDevice(l: seq<Record>, r: Record)
    requires r.isdevice
    ensures Once(l + [r]) <==> Once(l)
  {
    if Once(l + [r]) { assert forall i :: 0 <= i < |l| ==> (l + [r])[i] == l[i]; }
  }

  // ---------------------------------------------------------------- the application database

  class AppDbase {
    const create: bool            // the database file was new
    var apps: Option<seq<string>>
    var lists: Lists

    constructor (create: bool)
      ensures this.create == create && apps == None && lists == map[]
    {
      this.create, apps, lists := create, None, map[];
    }

    function Apps(): seq<string>
      reads this`apps
    {
      if apps.Some? then apps.value else []
    }

    method GetApps() returns (l: seq<string>)
      ensures l == if create then [] else Apps()
    {
      if create { return []; }
      l := Apps();
    }

    method AddApp(app: string)
      modifies this`apps
      ensures app in Apps() && (forall x :: x in Apps() <==> x in old(Apps()) || x == app)
      ensures Apps() == if app in old(Apps()) then old(Apps()) else old(Apps()) + [app]
    {
      var appList := if apps.Some? then apps.value else [];
      if app !in appList { appList := appList + [app]; }
      apps := Some(appList);
    }

    /** The application's list of actors goes too. */
    method DelApp(app: string) returns (ok: bool)
      modifies this
      ensures ok == (app in old(Apps()))
      ensures lists == if ok then old(lists) - {app} else old(lists)
      ensures !ok ==> Apps() == old(Apps())
      ensures ok ==> exists i :: 0 <= i < |old(Apps())| && old(Apps())[i] == app && app !in old(Apps())[..i]
                                 && Apps() == old(Apps())[..i] + old(Apps())[i + 1..]
    {
      var appList := Apps();
      ok := false;
      for i := 0 to |appList|
        invariant app !in appList[..i] && lists == old(lists) && apps == old(apps)
      {
        if appList[i] == app {
          lists := lists - {app};
          apps := Some(appList[..i] + appList[i + 1..]);
          return true;
        }
      }
      assert appList[..|appList|] == appList;
    }

    method AddAppActor(app: string, r: Record)
      modifies this`lists
      ensures lists == old(lists)[app := ListOf(old(lists), app) + [r]]
    {
      lists := lists[app := ListOf(lists, app) + [r]];
    }

    /** The first record of the actor. */
    method GetAppActor(app: string, actor: string) returns (r: Option<Record>)
      ensures r.Some? <==> exists x :: x in ListOf(lists, app) && x.actor == actor
      ensures r.Some? ==> r.value in ListOf(lists, app) && r.value.actor == actor
    {
      var l := ListOf(lists, app);
      for i := 0 to |l|
        invariant forall j :: 0 <= j < i ==> l[j].actor != actor
      {
        if l[i].actor == actor { return Some(l[i]); }
      }
      r := None;
    }

    method DelAppActor(app: string, actor: string)
      modifies this`lists
      ensures lists == old(lists)[app := Without(ListOf(old(lists), app), actor)]
    {
      var kept: seq<Record> := [];
      var l := ListOf(lists, app);
      for i := 0 to |l|
        invariant lists == old(lists) && kept + Without(l[i..], actor) == Without(l, actor)
      {
        assert l[i..][0] == l[i] && l[i..][1..] == l[i + 1..];
        if l[i].actor != actor { kept := kept + [l[i]]; }
      }
      assert l[|l|..] == [] && kept + [] == kept;
      lists := lists[app := kept];
    }
  }

  // ---------------------------------------------------------------- the deployment manager

  /** Applications are listed once, and every list of actors belongs to a listed one. */
  ghost predicate Listed(apps: seq<string>, lists: Lists, users: set<string>) {
    && Distinct(apps)
    && (forall app :: app in lists ==> app in apps)
    && (forall app :: app in users ==> app in apps)
    && (forall app :: app in apps ==> '.' !in app)
  }

  /** Devices are known by their qualified names, for good. */
  ghost predicate Named(devices: map<string, Device>, users: set<string>) {
    forall k :: k in devices ==> k == Qual(devices[k].app, devices[k].inst) && devices[k].app in users
  }

  /** What has a process is an actor or a device, and every actor has one. */
  ghost predicate Launched(processes: set<string>, actors: set<string>, devices: set<string>) {
    actors <= processes <= actors + devices
  }

  class DeplManager {
    const dbase: AppDbase
    var launchMap: map<string, Pid>
    var actors: map<string, Actor>
    var devices: map<string, Device>
    var users: set<string>          // the applications that are set up (appUser)
    var killed: seq<Pid>            // orphans that recovery looked for

    ghost predicate Valid()
      reads this, dbase
    {
      && Agree(dbase.lists, actors) && Listed(dbase.Apps(), dbase.lists, users)
      && Launched(launchMap.Keys, actors.Keys, devices.Keys) && Named(devices, users)
    }

    /** A manager after a crash, over what the previous one left in the database. */
    constructor (dbase: AppDbase)
      ensures this.dbase == dbase && launchMap == map[] && actors == map[] && devices == map[] && users == {}
    {
      this.dbase, launchMap, actors, devices, users, killed := dbase, map[], map[], map[], {}, [];
    }

    method SetupApp(app: string)
      requires Valid() && '.' !in app
      modifies this`users, dbase`apps
      ensures Valid() && users == old(users) + {app}
      ensures forall x :: x in dbase.Apps() <==> x in old(dbase.Apps()) || x == app
    {
      hide Agree;
      users := users + {app};
      dbase.AddApp(app);
    }

    /** The process id of the actor, or the failure: nothing is recorded of an actor that does not start, or whose
        application is not set up. Starting an actor that already runs leaves it with two records. */
    method StartActor(app: string, model: string, actor: string, args: seq<string>, launched: Option<Pid>) returns (ok: bool)
      requires Valid() && '.' !in app
      modifies this`launchMap, this`actors, dbase`lists
      ensures Valid() <==> !ok || Qual(app, actor) !in old(actors)
      ensures ok <==> app in users && launched.Some?
      ensures !ok ==> launchMap == old(launchMap) && actors == old(actors) && dbase.lists == old(dbase.lists)
      ensures ok ==>
                && launchMap == old(launchMap)[Qual(app, actor) := launched.value]
                && actors == old(actors)[Qual(app, actor) := Actor(app, model, actor, args)]
                && dbase.lists == old(dbase.lists)[app := ListOf(old(dbase.lists), app)
                                                          + [Record(app, model, actor, args, launched.value, false)]]
    {
      hide Agree, Qual;
      if app !in users { return false; }
      if launched.None? { return false; }
      var key, r := Qual(app, actor), Record(app, model, actor, args, launched.value, false);
      StartAgrees(dbase.lists, actors, r);
      launchMap := launchMap[key := launched.value];
      actors := actors[key := Actor(app, model, actor, args)];
      dbase.AddAppActor(app, r);
      ok := true;
    }

    /** A device is recorded, but it is not among the actors. */
    method StartDevice(app: string, model: string, kind: string, inst: string, args: seq<string>, launched: Option<Pid>)
        returns (ok: bool)
      requires Valid() && app in users
      modifies this`launchMap, this`devices, dbase`lists
      ensures Valid() && ok == launched.Some?
      ensures !ok ==> launchMap == old(launchMap) && devices == old(devices) && dbase.lists == old(dbase.lists)
      ensures ok ==>
                && launchMap == old(launchMap)[Qual(app, inst) := launched.value]
                && devices == old(devices)[Qual(app, inst) := Device(app, model, kind, inst, args)]
                && dbase.lists == old(dbase.lists)[app := ListOf(old(dbase.lists), app)
                                                          + [Record(app, model, inst, args, launched.value, true)]]
    {
      hide Agree, Qual;
      if launched.None? { return false; }
      var r := Record(app, model, inst, args, launched.value, true);
      DeviceAgrees(dbase.lists, actors, r);
      launchMap := launchMap[Qual(app, inst) := launched.value];
      devices := devices[Qual(app, inst) := Device(app, model, kind, inst, args)];
      dbase.AddAppActor(app, r);
      ok := true;
    }

    /** The process of a device goes, its two records stay. A process of no device fails the assertion, when its entry
        is gone already: the name is that of an actor. */
    method StopDevice(app: string, inst: string) returns (ok: bool)
      requires Valid()
      modifies this`launchMap
      ensures launchMap == old(launchMap) - {Qual(app, inst)}
      ensures ok <==> Qual(app, inst) !in old(launchMap) || Qual(app, inst) in devices
      ensures Qual(app, inst) !in actors ==> ok
      ensures Valid() <==> Qual(app, inst) !in actors
    {
      hide Agree, Qual, Listed, Named;
      var key := Qual(app, inst);
      if key !in launchMap {
        assert launchMap - {key} == launchMap;
        return true;
      }
      launchMap := launchMap - {key};
      ok := key in devices;
    }

    method StopActor(app: string, actor: string)
      requires Valid() && '.' !in app
      modifies this`launchMap, this`actors, dbase`lists
      ensures Valid()
      ensures launchMap == old(launchMap) - {Qual(app, actor)} && actors == old(actors) - {Qual(app, actor)}
      ensures dbase.lists == if Qual(app, actor) in old(actors)
                             then old(dbase.lists)[app := Without(ListOf(old(dbase.lists), app), actor)]
                             else old(dbase.lists)
    {
      hide Agree, Qual, Without;
      var key := Qual(app, actor);
      if key !in launchMap {
        assert launchMap - {key} == launchMap && actors - {key} == actors;
        return;
      }
      launchMap := launchMap - {key};
      if key !in actors {
        assert actors - {key} == actors;
        return;
      }
      StopAgrees(dbase.lists, actors, app, actor);
      RunningIsRecorded(dbase.lists, actors, app, actor);
      actors := actors - {key};
      var record := dbase.GetAppActor(app, actor);
      assert record.Some?;  // its firewall rules are undone
      dbase.DelAppActor(app, actor);
    }

    /** The process monitor reports a process that died: the actor or device is started again as it was. The name of
        the discovery process comes first, also if it is that of an actor. */
    method HandleProcmon(qualName: string, launched: Option<Pid>) returns (ok: bool)
      requires Valid()
      modifies this`launchMap, this`actors, this`devices, dbase`lists
      ensures Valid() && devices == old(devices)
      ensures qualName == DISCO || (qualName !in old(actors) && qualName !in devices) ==>
                !ok && actors == old(actors) && launchMap == old(launchMap) && dbase.lists == old(dbase.lists)
      ensures qualName != DISCO && qualName in old(actors) ==>
                && (ok <==> old(actors)[qualName].app in users && launched.Some?)
                && actors == (if ok then old(actors) else old(actors) - {qualName})
                && (ok ==> qualName in launchMap && launchMap[qualName] == launched.value)
      ensures qualName != DISCO && qualName !in old(actors) && qualName in devices ==>
                var d := devices[qualName];
                && ok == launched.Some? && actors == old(actors)
                && launchMap == (if ok then old(launchMap)[qualName := launched.value] else old(launchMap) - {qualName})
                && dbase.lists == (if ok then old(dbase.lists)[d.app := ListOf(old(dbase.lists), d.app)
                                                                        + [Record(d.app, d.model, d.inst, d.args, launched.value, true)]]
                                   else old(dbase.lists))
    {
      hide Agree, Qual, Without, Split1, Listed, ListOf;
      ok := false;
      if qualName == DISCO { return; }
      if qualName in actors {
        ok := RestartActor(qualName, launched);
      } else if qualName in devices {
        ok := RestartDevice(qualName, launched);
      }
    }

    method RestartActor(qualName: string, launched: Option<Pid>) returns (ok: bool)
      requires Valid() && qualName in actors
      modifies this`launchMap, this`actors, dbase`lists
      ensures Valid()
      ensures ok <==> old(actors)[qualName].app in users && launched.Some?
      ensures actors == if ok then old(actors) else old(actors) - {qualName}
      ensures ok ==> qualName in launchMap && launchMap[qualName] == launched.value
    {
      hide Agree, Qual, Without, Split1, Listed, ListOf, Named;
      var record := actors[qualName];
      NamesAreTheRecords(dbase.lists, actors, qualName);
      assert qualName in launchMap;  // the source asserts this, and that the names are those of the record
      StopActor(record.app, record.actor);
      ok := StartActor(record.app, record.model, record.actor, record.args, launched);
    }

    /** The record of the dead device stays beside that of the new one. */
    method RestartDevice(qualName: string, launched: Option<Pid>) returns (ok: bool)
      requires Valid() && qualName !in actors && qualName in devices
      modifies this`launchMap, this`devices, dbase`lists
      ensures Valid() && devices == old(devices) && ok == launched.Some?
      ensures launchMap == if ok then old(launchMap)[qualName := launched.value] else old(launchMap) - {qualName}
      ensures var d := devices[qualName];
              dbase.lists == if ok then old(dbase.lists)[d.app := ListOf(old(dbase.lists), d.app)
                                                                  + [Record(d.app, d.model, d.inst, d.args, launched.value, true)]]
                             else old(dbase.lists)
    {
      hide Agree, Qual, Listed, ListOf;
      var d := devices[qualName];
      var stopped := StopDevice(d.app, d.inst);
      assert stopped;
      ok := StartDevice(d.app, d.model, d.kind, d.inst, d.args, launched);
      if ok { assert (old(launchMap) - {qualName})[qualName := launched.value] == old(launchMap)[qualName := launched.value]; }
    }

    /** An orphan is looked for and killed, and its record removed. */
    method StopOrphanActor(record: Record)
      modifies this`killed, dbase`lists
      ensures dbase.lists == old(dbase.lists)[record.app := Without(ListOf(old(dbase.lists), record.app), record.actor)]
      ensures killed == old(killed) + [record.pid]
    {
      killed := killed + [record.pid];
      dbase.DelAppActor(record.app, record.actor);
    }

    /** The inner loop of recovery's first part: all records of one application go. */
    method StopOrphans(app: string) returns (acts: seq<Record>)
      requires forall a :: ListOk(dbase.lists, a)
      modifies this`killed, dbase`lists
      ensures acts == ListOf(old(dbase.lists), app)
      ensures dbase.lists == (if acts == [] then old(dbase.lists) else old(dbase.lists)[app := []])
      ensures forall a :: ListOk(dbase.lists, a)
      ensures forall r :: r in acts ==> r.pid in killed
      ensures forall x :: x in old(killed) ==> x in killed
    {
      hide Without, ListOk, WithoutAll;
      acts := ListOf(dbase.lists, app);
      SameApp(dbase.lists, app);
      NoneDropped(acts);
      for j := 0 to |acts|
        invariant dbase.lists == if j == 0 then old(dbase.lists) else old(dbase.lists)[app := WithoutAll(acts, acts[..j])]
        invariant forall x :: x in old(killed) ==> x in killed
        invariant forall i :: 0 <= i < j ==> acts[i].pid in killed
      {
        StopOrphanActor(acts[j]);
        OneDropped(acts, j);
      }
      if acts != [] {
        AllDropped(acts);
        assert acts[..|acts|] == acts;
        EmptiedOk(old(dbase.lists), app);
      }
    }

    /** One application of recovery's second part. `setups` are the applications whose setup succeeds, `starts` the
        actors that start. */
    method RecoverApp(app: string, acts: seq<Record>, setups: set<string>, starts: map<string, Pid>)
      requires Valid() && '.' !in app && Once(acts) && forall r :: r in acts ==> r.app == app
      requires app in dbase.Apps() && forall r :: r in acts ==> Qual(app, r.actor) !in actors
      modifies this`launchMap, this`actors, this`users, dbase
      ensures Valid()
      ensures forall k :: k in actors <==> k in old(actors) || exists r :: r in acts && Restarts(r, setups, starts) && k == Qual(app, r.actor)
      ensures forall k :: k in old(actors) ==> actors[k] == old(actors)[k]
      ensures forall r :: r in acts && Restarts(r, setups, starts) ==> actors[Qual(app, r.actor)] == ActorOf(r)
      ensures forall x :: x in dbase.Apps() <==> x in old(dbase.Apps())
    {
      hide Agree, Without, Listed;
      var appSet := false;
      for j := 0 to |acts|
        invariant Valid() && (appSet ==> app in users && app in setups) && app in dbase.Apps()
        invariant forall k :: k in actors <==>
                    k in old(actors) || exists r :: r in acts[..j] && Restarts(r, setups, starts) && k == Qual(app, r.actor)
        invariant forall k :: k in old(actors) ==> actors[k] == old(actors)[k]
        invariant forall r :: r in acts[..j] && Restarts(r, setups, starts) ==> actors[Qual(app, r.actor)] == ActorOf(r)
        invariant forall x :: x in dbase.Apps() <==> x in old(dbase.Apps())
      {
        var act := acts[j];
        assert forall r :: r in acts[..j + 1] <==> r in acts[..j] || r == act;
        forall r | r in acts[..j] && !r.isdevice && !act.isdevice ensures Qual(app, r.actor) != Qual(app, act.actor) {
          var i :| 0 <= i < j && acts[i] == r;
          QualsDiffer(app, r.actor, app, act.actor);
        }
        appSet := RecoverActor(act, appSet, setups, starts);
      }
      assert acts[..|acts|] == acts;
    }

    method RecoverActor(act: Record, appSet: bool, setups: set<string>, starts: map<string, Pid>) returns (nowSet: bool)
      requires Valid() && '.' !in act.app && (appSet ==> act.app in users && act.app in setups)
      requires act.app in dbase.Apps()
      requires !act.isdevice || act.app !in setups ==> Qual(act.app, act.actor) !in actors
      modifies this`launchMap, this`actors, this`users, dbase
      ensures Valid() && (nowSet ==> act.app in users && act.app in setups)
      ensures actors == if Restarts(act, setups, starts) then old(actors)[Qual(act.app, act.actor) := ActorOf(act)] else old(actors)
      ensures forall x :: x in dbase.Apps() <==> x in old(dbase.Apps())
    {
      hide Agree, Without, Listed, Qual;
      nowSet := appSet;
      var key := Qual(act.app, act.actor);
      var ok := true;
      if !nowSet {
        if act.app in setups {
          SetupApp(act.app);
          nowSet := true;
        } else {
          ok := false;
        }
      }
      if ok && !act.isdevice {
        ok := StartActor(act.app, act.model, act.actor, act.args, if key in starts then Some(starts[key]) else None);
      }
      if !ok { Forget(act); }
    }

    /** Recovery of an actor failed: its record is removed (it is gone already). */
    method Forget(act: Record)
      requires Valid() && '.' !in act.app && act.app in dbase.Apps() && Qual(act.app, act.actor) !in actors
      modifies dbase`lists
      ensures Valid()
    {
      DropNothing(dbase.lists, actors, act.app, act.actor);
      hide Agree, Without, Qual;
      dbase.DelAppActor(act.app, act.actor);
    }

    /** The outer loop of recovery's first part: every recorded actor's orphan is killed, and no record is left. */
    method StopAllOrphans(apps: seq<string>) returns (cmds: map<string, seq<Record>>)
      requires Distinct(apps) && forall a :: ListOk(dbase.lists, a)
      modifies this`killed, dbase`lists
      ensures forall a :: a in apps ==> a in cmds && cmds[a] == ListOf(old(dbase.lists), a)
      ensures forall a :: ListOf(dbase.lists, a) == if a in apps then [] else ListOf(old(dbase.lists), a)
      ensures dbase.lists.Keys == old(dbase.lists).Keys
      ensures forall r: Record :: r in ListOf(old(dbase.lists), r.app) && r.app in apps ==> r.pid in killed
    {
      hide ListOk;
      cmds := map[];
      for i := 0 to |apps|
        invariant forall a :: ListOk(dbase.lists, a)
        invariant dbase.lists.Keys == old(dbase.lists).Keys
        invariant forall a :: ListOf(dbase.lists, a) == if a in apps[..i] then [] else ListOf(old(dbase.lists), a)
        invariant forall a :: a in apps[..i] ==> a in cmds && cmds[a] == ListOf(old(dbase.lists), a)
        invariant forall r: Record :: r in ListOf(old(dbase.lists), r.app) && r.app in apps[..i] ==> r.pid in killed
      {
        var app := apps[i];
        assert forall a :: a in apps[..i + 1] <==> a in apps[..i] || a == app;
        assert app !in apps[..i];
        ghost var was := dbase.lists;
        var acts := StopOrphans(app);
        assert forall a :: ListOf(dbase.lists, a) == if a == app then [] else ListOf(was, a);
        cmds := cmds[app := acts];
      }
      assert apps[..|apps|] == apps;
    }

    /** recover: after a crash, over a database that agreed with what ran before, exactly the recorded actors whose
        application can be set up and who start run again, as they were started, with one record each; if all do,
        the same actors run as before. */
    method Recover(setups: set<string>, starts: map<string, Pid>, ghost before: map<string, Actor>)
      requires launchMap == map[] && actors == map[] && devices == map[] && users == {} && !dbase.create
      requires Agree(dbase.lists, before) && Listed(dbase.Apps(), dbase.lists, {})
      modifies this, dbase
      ensures Valid()
      ensures forall r :: Recorded(old(dbase.lists), r) && Restarts(r, setups, starts) ==> RecordOk(actors, r)
      ensures forall k :: k in actors ==> Revived(old(dbase.lists), setups, starts, k)
      ensures (forall r :: Recorded(old(dbase.lists), r) ==> Restarts(r, setups, starts)) ==> actors == before
      ensures forall r :: Recorded(old(dbase.lists), r) ==> r.pid in killed
    {
      ghost var lists := dbase.lists;
      var apps := dbase.GetApps();
      var cmds := StopAllOrphans(apps);
      NoRecordsLeft(lists, dbase.lists, apps);

      RestartAll(apps, cmds, setups, starts, lists);
      AllRevived(lists, setups, starts, before, actors);

      forall r | Recorded(lists, r) ensures r.pid in killed { assert r.app in apps; }
    }

    /** recover's second part. */
    method RestartAll(apps: seq<string>, cmds: map<string, seq<Record>>, setups: set<string>, starts: map<string, Pid>, ghost lists: Lists)
      requires Valid() && actors == map[] && apps == dbase.Apps()
      requires forall a :: ListOk(lists, a)
      requires forall a :: a in lists ==> a in apps
      requires forall a :: a in apps ==> a in cmds && cmds[a] == ListOf(lists, a)
      modifies this`launchMap, this`actors, this`users, dbase
      ensures Valid()
      ensures forall r :: Recorded(lists, r) && Restarts(r, setups, starts) ==> RecordOk(actors, r)
      ensures forall k :: k in actors ==> Revived(lists, setups, starts, k)
    {
      hide Agree, ListOk, Recorded, RecordOk, RevivedIn, Restarts, Qual;
      for i := 0 to |apps|
        invariant Valid() && forall x :: x in dbase.Apps() <==> x in apps
        invariant forall r :: Recorded(lists, r) && r.app in apps[..i] && Restarts(r, setups, starts) ==> RecordOk(actors, r)
        invariant forall k :: k in actors ==> RevivedIn(lists, apps[..i], setups, starts, k)
      {
        var app := apps[i];
        assert forall a :: a in apps[..i + 1] <==> a in apps[..i] || a == app;
        NotYetRevived(lists, apps, i, setups, starts, actors.Keys);
        ghost var was := actors;
        RecoverApp(app, cmds[app], setups, starts);
        MoreRevived(lists, apps, i, setups, starts, was, actors);
      }
      assert apps[..|apps|] == apps;
      AllAppsRevived(lists, apps, setups, starts, actors);
    }
  }

  lemma NoRecordsLeft(was: Lists, lists: Lists, apps: seq<string>)
    requires Listed(apps, was, {}) && lists.Keys == was.Keys && forall a :: ListOk(was, a)
    requires forall a :: ListOf(lists, a) == if a in apps then [] else ListOf(was, a)
    ensures Agree(lists, map[]) && Listed(apps, lists, {})
  {
  }

  /** What runs so far are actors of other applications. */
  lemma NotYetRevived(lists: Lists, apps: seq<string>, i: nat, setups: set<string>, starts: map<string, Pid>, running: set<string>)
    requires i < |apps| && Distinct(apps) && (forall a :: a in apps ==> '.' !in a) && forall a :: ListOk(lists, a)
    requires forall k :: k in running ==> RevivedIn(lists, apps[..i], setups, starts, k)
    ensures Once(ListOf(lists, apps[i]))
    ensures forall r :: r in ListOf(lists, apps[i]) ==> r.app == apps[i] && Qual(apps[i], r.actor) !in running
  {
    var app := apps[i];
    assert ListOk(lists, app);
    assert app !in apps[..i];
    forall r | r in ListOf(lists, app) && Qual(app, r.actor) in running ensures false {
      var x :| Recorded(lists, x) && x.app in apps[..i] && Restarts(x, setups, starts) && Qual(app, r.actor) == Qual(x.app, x.actor);
      QualsDiffer(app, r.actor, x.app, x.actor);
    }
  }

  /** One more application. */
  lemma MoreRevived(
      lists: Lists, apps: seq<string>, i: nat, setups: set<string>, starts: map<string, Pid>,
      was: map<string, Actor>, actors: map<string, Actor>)
    requires i < |apps|
    requires forall r :: Recorded(lists, r) && r.app in apps[..i] && Restarts(r, setups, starts) ==> RecordOk(was, r)
    requires forall k :: k in was ==> RevivedIn(lists, apps[..i], setups, starts, k)
    requires forall r :: r in ListOf(lists, apps[i]) ==> r.app == apps[i]
    requires var acts := ListOf(lists, apps[i]);
             && (forall k :: k in actors <==>
                   k in was || exists r :: r in acts && Restarts(r, setups, starts) && k == Qual(apps[i], r.actor))
             && (forall k :: k in was ==> actors[k] == was[k])
             && (forall r :: r in acts && Restarts(r, setups, starts) ==> actors[Qual(apps[i], r.actor)] == ActorOf(r))
    ensures forall r :: Recorded(lists, r) && r.app in apps[..i + 1] && Restarts(r, setups, starts) ==> RecordOk(actors, r)
    ensures forall k :: k in actors ==> RevivedIn(lists, apps[..i + 1], setups, starts, k)
  {
  }

  /** When every recorded actor starts, the same actors run as before the crash. */
  lemma AllRevived(lists: Lists, setups: set<string>, starts: map<string, Pid>, before: map<string, Actor>, actors: map<string, Actor>)
    requires Agree(lists, before)
    requires forall r :: Recorded(lists, r) && Restarts(r, setups, starts) ==> RecordOk(actors, r)
    requires forall k :: k in actors ==> Revived(lists, setups, starts, k)
    ensures (forall r :: Recorded(lists, r) ==> Restarts(r, setups, starts)) ==> actors == before
  {
    hide Qual;
    if forall r :: Recorded(lists, r) ==> Restarts(r, setups, starts) {
      forall k | k in before ensures k in actors && actors[k] == before[k] {
        assert ActorOk(lists, before, k);
        var r :| Recorded(lists, r) && ActorOf(r) == before[k];
        assert RecordOk(actors, r);
      }
      forall k | k in actors ensures k in before {
        assert Revived(lists, setups, starts, k);
        var r :| Recorded(lists, r) && Restarts(r, setups, starts) && k == Qual(r.app, r.actor);
        assert RecordOk(before, r);
      }
    }
  }

  lemma AllAppsRevived(lists: Lists, apps: seq<string>, setups: set<string>, starts: map<string, Pid>, actors: map<string, Actor>)
    requires forall a :: a in lists ==> a in apps
    requires forall r :: Recorded(lists, r) && r.app in apps && Restarts(r, setups, starts) ==> RecordOk(actors, r)
    requires forall k :: k in actors ==> RevivedIn(lists, apps, setups, starts, k)
    ensures forall r :: Recorded(lists, r) && Restarts(r, setups, starts) ==> RecordOk(actors, r)
    ensures forall k :: k in actors ==> Revived(lists, setups, starts, k)
  {
  }

  /** The name of a recorded actor that recovery starts. */
  ghost predicate Revived(lists: Lists, setups: set<string>, starts: map<string, Pid>, k: string) {
    exists r :: Recorded(lists, r) && Restarts(r, setups, starts) && k == Qual(r.app, r.actor)
  }

  ghost predicate RevivedIn(lists: Lists, apps: seq<string>, setups: set<string>, starts: map<string, Pid>, k: string) {
    exists r :: Recorded(lists, r) && r.app in apps && Restarts(r, setups, starts) && k == Qual(r.app, r.actor)
  }

  ghost predicate Distinct(apps: seq<string>) {
    forall i, j :: 0 <= i < j < |apps| ==> apps[i] != apps[j]
  }

  lemma EmptiedOk(lists: Lists, app: string)
    requires app in lists && forall a :: ListOk(lists, a)
    ensures var u := lists[app := []]; forall a :: ListOk(u, a)
  {
    var u := lists[app := []];
    forall a ensures ListOk(u, a) { assert ListOk(lists, a); }
  }

  lemma SameApp(lists: Lists, app: string)
    requires ListOk(lists, app)
    ensures forall i :: 0 <= i < |ListOf(lists, app)| ==> ListOf(lists, app)[i].app == app
  {
  }

  /** What is left after the records of these actors were deleted one by one. */
  ghost function WithoutAll(l: seq<Record>, gone: seq<Record>): seq<Record> {
    if gone == [] then l else Without(WithoutAll(l, gone[..|gone| - 1]), gone[|gone| - 1].actor)
  }

  lemma NoneDropped(l: seq<Record>)
    ensures WithoutAll(l, l[..0]) == l
  {
  }

  lemma OneDropped(l: seq<Record>, j: nat)
    requires j < |l|
    ensures WithoutAll(l, l[..j + 1]) == Without(WithoutAll(l, l[..j]), l[j].actor)
  {
    assert l[..j + 1][..j] == l[..j];
  }

  lemma {:induction false} DroppedAre(l: seq<Record>, gone: seq<Record>)
    ensures forall r :: r in WithoutAll(l, gone) ==> r in l && r !in gone
  {
    if gone != [] {
      var front := gone[..|gone| - 1];
      DroppedAre(l, front);
      WithoutKeeps(WithoutAll(l, front), gone[|gone| - 1].actor);
      assert gone == front + [gone[|gone| - 1]];
    }
  }

  /** Deleting every recorded actor of an application leaves no record. */
  lemma AllDropped(l: seq<Record>)
    ensures WithoutAll(l, l) == []
  {
    DroppedAre(l, l);
    SomeMember(WithoutAll(l, l));
  }

  lemma SomeMember(l: seq<Record>)
    ensures l != [] ==> exists r :: r in l
  {
    if l != [] { assert l[0] in l; }
  }

  /** Recovery starts the actor again. */
  ghost predicate Restarts(r: Record, setups: set<string>, starts: map<string, Pid>) {
    !r.isdevice && r.app in setups && Qual(r.app, r.actor) in starts
  }

  /** The name a running actor is known by comes apart into the names in its record. */
  lemma NamesAreTheRecords(lists: Lists, actors: map<string, Actor>, q: string)
    requires Agree(lists, actors) && q in actors
    ensures var a := actors[q]; '.' !in a.app && q == Qual(a.app, a.actor) && Split1(q) == Some((a.app, a.actor))
  {
    assert ActorOk(lists, actors, q);
    QualSplits(actors[q].app, actors[q].actor);
  }

  /** Every running actor has a record under its name. */
  lemma RunningIsRecorded(lists: Lists, actors: map<string, Actor>, app: string, actor: string)
    requires Agree(lists, actors) && '.' !in app && Qual(app, actor) in actors
    ensures exists x :: x in ListOf(lists, app) && x.actor == actor
    ensures app in lists
  {
    var k := Qual(app, actor);
    assert ActorOk(lists, actors, k);
    var x :| Recorded(lists, x) && ActorOf(x) == actors[k];
    QualsDiffer(app, actor, x.app, x.actor);
  }
}