/**
  The strings of the discovery service (src/riaps/discd/discs.py): the database key a provider is
  stored under, the key a consumer looks under, and the client id that is parsed again when a
  notification comes in. Kinds are the texts of the enumeration of the request messages.
 */
module DiscoNames {
  import opened Wrappers

  // ---------------------------------------------------------------- splitting strings

  /** re.split with a one-character pattern. */
  function Split(s: string, c: char): (parts: seq<string>)
    ensures parts != []
  {
    if s == [] then [[]]
    else
      var rest := Split(s[1..], c);
      if s[0] == c then [[]] + rest else [[s[0]] + rest[0]] + rest[1..]
  }

  lemma {:induction false} SplitPlain(s: string, c: char)
    requires c !in s
    ensures Split(s, c) == [s]
  {
    if s != [] {
      SplitPlain(s[1..], c);
      assert [s[0]] + s[1..] == s;
    }
  }

  /** The last separator starts the last part. */
  lemma {:induction false} SplitLast(s: string, c: char, last: string)
    requires c !in last
    ensures Split(s + [c] + last, c) == Split(s, c) + [last]
  {
    var t := s + [c] + last;
    if s == [] {
      assert t[1..] == last;
      SplitPlain(last, c);
    } else {
      SplitLast(s[1..], c, last);
      assert t[1..] == s[1..] + [c] + last;
    }
  }

  /** One part more than there are separators. */
  lemma {:induction false} SplitCounts(s: string, c: char)
    ensures |Split(s, c)| == multiset(s)[c] + 1
  {
    if s != [] {
      SplitCounts(s[1..], c);
      assert s == [s[0]] + s[1..];
    }
  }

  // ---------------------------------------------------------------- building keys

  datatype Scope = Unset | Global | Local | Internal

  /** A disco server as far as names go: its MAC address, its host and its device actors. */
  datatype Server = Server(mac: string, host: string, devices: set<string>)

  ghost predicate Plain(s: string) {
    '/' !in s && ':' !in s
  }

  function BaseKey(app: string, actor: string): string {
    "/" + app + "/" + actor + "/"
  }

  function ActorKey(app: string, actor: string): string {
    app + "/" + actor
  }

  /** The actor a scope-internal service belongs to: a device stands for the actor that owns it. A device
      name that is not owner.instance raises ValueError. */
  function Owner(s: Server, app: string, actor: string): Option<string> {
    if BaseKey(app, actor) in s.devices then
      var parts := Split(actor, '.');
      if |parts| == 2 then Some(parts[0]) else None
    else Some(actor)
  }

  function Suffix(s: Server, scope: Scope, actor: string): string {
    match scope
    case Unset => ""
    case Global => ""
    case Local => ":" + s.mac
    case Internal => ":" + s.mac + ":" + actor
  }

  function ServiceKey(s: Server, app: string, msgType: string, kind: string, scope: Scope, owner: string): string {
    "/" + app + "/" + msgType + "/" + kind + Suffix(s, scope, owner)
  }

  /** The key of buildInsertKeyValuePair; None where the source raises. */
  function InsertKey(s: Server, app: string, actor: string, msgType: string, kind: string, scope: Scope): Option<string> {
    if scope.Internal? then
      match Owner(s, app, actor)
      case None => None
      case Some(owner) => Some(ServiceKey(s, app, msgType, kind, scope, owner))
    else Some(ServiceKey(s, app, msgType, kind, scope, actor))
  }

  /** The provider's kind for a consumer's kind; None where the source raises KeyError. */
  function ProviderKind(kind: string): Option<string> {
    if kind == "sub" then Some("pub")
    else if kind == "clt" then Some("srv")
    else if kind == "req" then Some("rep")
    else if kind == "rep" then Some("req")
    else if kind == "qry" then Some("ans")
    else if kind == "gsub" then Some("gpub")
    else None
  }

  function LookupKey(s: Server, app: string, actor: string, msgType: string, kind: string, scope: Scope): Option<string> {
    match ProviderKind(kind)
    case None => None
    case Some(provider) => InsertKey(s, app, actor, msgType, provider, scope)
  }

  // ---------------------------------------------------------------- who matches whom

  /** Where a service lives: everywhere, on a host, or in an actor on a host. */
  function Place(s: Server, scope: Scope, owner: string): seq<string> {
    match scope
    case Unset => []
    case Global => []
    case Local => [s.mac]
    case Internal => [s.mac, owner]
  }

  lemma SplitSlash(s: string, part: string)
    requires '/' !in part
    ensures Split(s + "/" + part, '/') == Split(s, '/') + [part]
  {
    SplitLast(s, '/', part);
  }

  lemma SplitColon(s: string, part: string)
    requires ':' !in part
    ensures Split(s + ":" + part, ':') == Split(s, ':') + [part]
  {
    SplitLast(s, ':', part);
  }

  /** Splitting a service key gives back everything that went into it. */
  lemma ServiceKeySplits(s: Server, app: string, msgType: string, kind: string, scope: Scope, owner: string)
    requires Plain(app) && Plain(msgType) && Plain(kind) && Plain(owner) && Plain(s.mac)
    ensures var key := ServiceKey(s, app, msgType, kind, scope, owner);
            && Split(key, '/') == ["", app, msgType, kind + Suffix(s, scope, owner)]
            && Split(kind + Suffix(s, scope, owner), ':') == [kind] + Place(s, scope, owner)
  {
    var last := kind + Suffix(s, scope, owner);
    assert '/' !in last;
    SplitPlaces(s, kind, scope, owner);
    hide Split, Suffix, Place;
    SplitPlain("", '/');
    SplitSlash("", app);
    SplitSlash("/" + app, msgType);
    SplitSlash("/" + app + "/" + msgType, last);
    Regroup("/" + app + "/" + msgType + "/", kind, Suffix(s, scope, owner));
    Regroup("", "/", app);
  }

  lemma Regroup(a: string, b: string, c: string)
    ensures a + b + c == a + (b + c)
  {
  }

  lemma SplitPlaces(s: Server, kind: string, scope: Scope, owner: string)
    requires Plain(kind) && Plain(owner) && Plain(s.mac)
    ensures Split(kind + Suffix(s, scope, owner), ':') == [kind] + Place(s, scope, owner)
  {
    hide Split;
    SplitPlain(kind, ':');
    SplitColon(kind, s.mac);
    match scope
    case Local => Regroup(kind, ":", s.mac);
    case Internal =>
      SplitColon(kind + ":" + s.mac, owner);
      Regroup(kind, ":", s.mac);
      Regroup(kind, ":" + s.mac, ":" + owner);
      Regroup(kind + ":" + s.mac, ":", owner);
      Regroup(":" + s.mac, ":", owner);
    case _ => assert kind + "" == kind;
  }

  lemma PartsArePlain(s: string, c: char, d: char)
    requires d !in s
    ensures forall i :: 0 <= i < |Split(s, c)| ==> d !in Split(s, c)[i]
  {
  }

  lemma OwnerIsPlain(s: Server, app: string, actor: string)
    requires Plain(actor) && Owner(s, app, actor).Some?
    ensures Plain(Owner(s, app, actor).value)
  {
    PartsArePlain(actor, '.', '/');
    PartsArePlain(actor, '.', ':');
  }

  /** Unset scope means global. */
  predicate SameScope(a: Scope, b: Scope) {
    a == b || ((a.Unset? || a.Global?) && (b.Unset? || b.Global?))
  }

  lemma PlaceDetermines(s: Server, scope: Scope, owner: string, s': Server, scope': Scope, owner': string)
    ensures Place(s, scope, owner) == Place(s', scope', owner') <==>
            SameScope(scope, scope') && (scope.Local? || scope.Internal? ==> s.mac == s'.mac)
            && (scope.Internal? ==> owner == owner')
    ensures Place(s, scope, owner) == Place(s', scope', owner') ==> Suffix(s, scope, owner) == Suffix(s', scope', owner')
  {
  }

  lemma SameServiceKey(
      s: Server, app: string, msgType: string, kind: string, scope: Scope, owner: string,
      s': Server, app': string, msgType': string, kind': string, scope': Scope, owner': string)
    requires Plain(app) && Plain(msgType) && Plain(kind) && Plain(owner) && Plain(s.mac)
    requires Plain(app') && Plain(msgType') && Plain(kind') && Plain(owner') && Plain(s'.mac)
    ensures ServiceKey(s, app, msgType, kind, scope, owner) == ServiceKey(s', app', msgType', kind', scope', owner') <==>
            app == app' && msgType == msgType' && kind == kind' && Place(s, scope, owner) == Place(s', scope', owner')
  {
    ServiceKeySplits(s, app, msgType, kind, scope, owner);
    ServiceKeySplits(s', app', msgType', kind', scope', owner');
    PlaceDetermines(s, scope, owner, s', scope', owner');
    hide Split, Place, Suffix, SameScope, Plain;
    var key, key' := ServiceKey(s, app, msgType, kind, scope, owner), ServiceKey(s', app', msgType', kind', scope', owner');
    if key == key' {
      var parts, parts' := Split(key, '/'), Split(key', '/');
      assert parts[1] == app && parts[2] == msgType && parts[3] == kind + Suffix(s, scope, owner);
      assert parts'[1] == app' && parts'[2] == msgType' && parts'[3] == kind' + Suffix(s', scope', owner');
      var last, last' := Split(parts[3], ':'), Split(parts'[3], ':');
      assert last[0] == kind && last'[0] == kind';
      assert last[1..] == Place(s, scope, owner) && last'[1..] == Place(s', scope', owner');
    }
  }

  /** Which consumers ask for which providers, by the kinds of their ports. */
  const PAIRS := {("sub", "pub"), ("clt", "srv"), ("req", "rep"), ("rep", "req"), ("qry", "ans"), ("gsub", "gpub")}

  /** A device actor is called after its owner, any other actor owns itself. */
  ghost predicate OwnedBy(s: Server, app: string, actor: string, owner: string) {
    if BaseKey(app, actor) in s.devices
    then exists inst :: actor == owner + "." + inst && '.' !in owner && '.' !in inst
    else actor == owner
  }

  lemma {:induction false} SplitParts(s: string, c: char)
    ensures forall i :: 0 <= i < |Split(s, c)| ==> c !in Split(s, c)[i]
    ensures |Split(s, c)| == 1 ==> s == Split(s, c)[0]
    ensures |Split(s, c)| == 2 ==> s == Split(s, c)[0] + [c] + Split(s, c)[1]
  {
    if s != [] {
      SplitParts(s[1..], c);
      assert s == [s[0]] + s[1..];
    }
  }

  /** The owner of a device is the part of its name before the dot; a name without exactly one dot has none. */
  lemma OwnerIs(s: Server, app: string, actor: string, owner: string)
    ensures Owner(s, app, actor) == Some(owner) <==> OwnedBy(s, app, actor, owner)
  {
    if BaseKey(app, actor) in s.devices {
      var parts := Split(actor, '.');
      SplitParts(actor, '.');
      if inst :| actor == owner + "." + inst && '.' !in owner && '.' !in inst {
        SplitPlain(owner, '.');
        SplitLast(owner, '.', inst);
      }
    }
  }

  lemma KindsPair(kind: string, provider: string)
    ensures ProviderKind(kind) == Some(provider) <==> (kind, provider) in PAIRS
  {
  }

  /** A consumer looks where a provider was stored exactly if application, message type and scope agree, the
      consumer's kind asks for the provider's kind, local services are on the same host, and internal ones
      belong to the same owner there. */
  lemma ConsumerFindsProvider(
      sp: Server, app: string, actor: string, msgType: string, kind: string, scope: Scope,
      sc: Server, app': string, actor': string, msgType': string, kind': string, scope': Scope)
    requires Plain(app) && Plain(actor) && Plain(msgType) && Plain(kind) && Plain(sp.mac)
    requires Plain(app') && Plain(actor') && Plain(msgType') && Plain(sc.mac)
    requires InsertKey(sp, app, actor, msgType, kind, scope).Some?
    requires LookupKey(sc, app', actor', msgType', kind', scope').Some?
    ensures InsertKey(sp, app, actor, msgType, kind, scope) == LookupKey(sc, app', actor', msgType', kind', scope') <==>
            && app == app' && msgType == msgType' && SameScope(scope, scope') && (kind', kind) in PAIRS
            && (scope.Local? || scope.Internal? ==> sp.mac == sc.mac)
            && (scope.Internal? ==> exists owner :: OwnedBy(sp, app, actor, owner) && OwnedBy(sc, app', actor', owner))
  {
    var provider := ProviderKind(kind').value;
    var owner := if scope.Internal? then Owner(sp, app, actor).value else actor;
    var owner' := if scope'.Internal? then Owner(sc, app', actor').value else actor';
    if scope.Internal? { OwnerIsPlain(sp, app, actor); }
    if scope'.Internal? { OwnerIsPlain(sc, app', actor'); }
    ProviderKindIsPlain(kind');
    PlaceDetermines(sp, scope, owner, sc, scope', owner');
    KindsPair(kind', kind);
    hide Split, Place, Suffix, ServiceKey, Owner, ProviderKind, Plain, OwnedBy, PAIRS;
    SameServiceKey(sp, app, msgType, kind, scope, owner, sc, app', msgType', provider, scope', owner');
    if scope.Internal? && scope'.Internal? { SameOwner(sp, app, actor, sc, app', actor'); }
  }

  lemma SameOwner(sp: Server, app: string, actor: string, sc: Server, app': string, actor': string)
    requires Owner(sp, app, actor).Some? && Owner(sc, app', actor').Some?
    ensures Owner(sp, app, actor) == Owner(sc, app', actor') <==>
            exists owner :: OwnedBy(sp, app, actor, owner) && OwnedBy(sc, app', actor', owner)
  {
    hide Owner, OwnedBy;
    forall owner
      ensures Owner(sp, app, actor) == Some(owner) <==> OwnedBy(sp, app, actor, owner)
      ensures Owner(sc, app', actor') == Some(owner) <==> OwnedBy(sc, app', actor', owner)
    {
      OwnerIs(sp, app, actor, owner);
      OwnerIs(sc, app', actor', owner);
    }
    if Owner(sp, app, actor) == Owner(sc, app', actor') {
      assert OwnedBy(sp, app, actor, Owner(sp, app, actor).value);
    }
  }

  /** Building a key raises exactly for a kind that consumes nothing, and for an internal service of a device whose
      name does not have exactly one dot. */
  lemma KeysAreBuilt(s: Server, app: string, actor: string, msgType: string, kind: string, scope: Scope)
    ensures InsertKey(s, app, actor, msgType, kind, scope).Some? <==> (scope.Internal? ==> exists owner :: OwnedBy(s, app, actor, owner))
    ensures LookupKey(s, app, actor, msgType, kind, scope).Some? <==>
            (exists provider :: (kind, provider) in PAIRS) && (scope.Internal? ==> exists owner :: OwnedBy(s, app, actor, owner))
  {
    hide OwnedBy, Owner;
    forall owner ensures Owner(s, app, actor) == Some(owner) <==> OwnedBy(s, app, actor, owner) { OwnerIs(s, app, actor, owner); }
    if Owner(s, app, actor).Some? { assert OwnedBy(s, app, actor, Owner(s, app, actor).value); }
    forall provider ensures ProviderKind(kind) == Some(provider) <==> (kind, provider) in PAIRS { KindsPair(kind, provider); }
    if ProviderKind(kind).Some? { assert (kind, ProviderKind(kind).value) in PAIRS; }
  }

  /** A device's internal service is found by the consumers in its owner, and by those in the owner's other devices. */
  lemma DeviceServesItsOwner(
      s: Server, app: string, owner: string, inst: string, inst': string, msgType: string, kind: string, consumer: string)
    requires Plain(app) && Plain(owner) && Plain(inst) && Plain(inst') && Plain(msgType) && Plain(kind) && Plain(s.mac)
    requires '.' !in owner && '.' !in inst && '.' !in inst' && (consumer, kind) in PAIRS
    requires BaseKey(app, owner + "." + inst) in s.devices && BaseKey(app, owner) !in s.devices
    ensures InsertKey(s, app, owner + "." + inst, msgType, kind, Internal).Some?
    ensures InsertKey(s, app, owner + "." + inst, msgType, kind, Internal) == LookupKey(s, app, owner, msgType, consumer, Internal)
    ensures BaseKey(app, owner + "." + inst') in s.devices ==>
              InsertKey(s, app, owner + "." + inst, msgType, kind, Internal) ==
              LookupKey(s, app, owner + "." + inst', msgType, consumer, Internal)
  {
    var device, other := owner + "." + inst, owner + "." + inst';
    assert OwnedBy(s, app, device, owner) && OwnedBy(s, app, owner, owner);
    if BaseKey(app, other) in s.devices { assert OwnedBy(s, app, other, owner); }
    hide OwnedBy, InsertKey, LookupKey, BaseKey, PAIRS;
    KeysAreBuilt(s, app, device, msgType, kind, Internal);
    KeysAreBuilt(s, app, owner, msgType, consumer, Internal);
    ConsumerFindsProvider(s, app, device, msgType, kind, Internal, s, app, owner, msgType, consumer, Internal);
    if BaseKey(app, other) in s.devices {
      KeysAreBuilt(s, app, other, msgType, consumer, Internal);
      ConsumerFindsProvider(s, app, device, msgType, kind, Internal, s, app, other, msgType, consumer, Internal);
    }
  }

  lemma ProviderKindIsPlain(kind: string)
    requires ProviderKind(kind).Some?
    ensures Plain(ProviderKind(kind).value)
  {
  }

  // ---------------------------------------------------------------- client ids

  /** What handleUpdate reads out of a client id. */
  datatype Client = Client(app: string, actor: string, host: string, instance: string, port: string, scope: Scope)

  function ClientId(s: Server, c: Client): string {
    "/" + c.app + "/" + c.actor + "/" + c.host + "/" + c.instance + "/" + c.port + Suffix(s, c.scope, c.actor)
  }

  /** None where the source raises IndexError. */
  function ParseClient(id: string): Option<Client> {
    var parts := Split(id, '/');
    if |parts| < 6 then None
    else
      var portMacAct := Split(parts[5], ':');
      var n := |portMacAct|;
      Some(Client(parts[1], parts[2], parts[3], parts[4], portMacAct[0],
                  if n == 2 then Local else if n == 3 then Internal else Global))
  }

  /** Notifications come back to the actor, instance and port that asked, with the scope it asked for. */
  lemma ClientRoundTrip(s: Server, c: Client)
    requires Plain(c.app) && Plain(c.actor) && Plain(c.host) && Plain(c.instance) && Plain(c.port) && Plain(s.mac)
    ensures ParseClient(ClientId(s, c)) == Some(c.(scope := if c.scope.Unset? then Global else c.scope))
  {
    var last := c.port + Suffix(s, c.scope, c.actor);
    SplitPlaces(s, c.port, c.scope, c.actor);
    assert '/' !in last;
    hide Split, Suffix;
    SplitPlain("", '/');
    SplitSlash("", c.app);
    SplitSlash("/" + c.app, c.actor);
    SplitSlash("/" + c.app + "/" + c.actor, c.host);
    SplitSlash("/" + c.app + "/" + c.actor + "/" + c.host, c.instance);
    SplitSlash("/" + c.app + "/" + c.actor + "/" + c.host + "/" + c.instance, last);
    Regroup("/" + c.app + "/" + c.actor + "/" + c.host + "/" + c.instance + "/", c.port, Suffix(s, c.scope, c.actor));
    Regroup("", "/", c.app);
  }

  // ---------------------------------------------------------------- endpoints

  function Digits(n: nat): string {
    (if n < 10 then [] else Digits(n / 10)) + ["0123456789"[n % 10]]
  }

  function Digit(c: char): Option<nat> {
    if '0' <= c <= '9' then Some(c as nat - '0' as nat) else None
  }

  /** int() on a text of digits; None where it raises. */
  function Number(s: string): Option<nat> {
    if s == [] then None
    else
      match Digit(s[|s| - 1])
      case None => None
      case Some(d) =>
        if |s| == 1 then Some(d)
        else
          match Number(s[..|s| - 1])
          case None => None
          case Some(n) => Some(10 * n + d)
  }

  lemma {:induction false} NumberRoundTrip(n: nat)
    ensures Number(Digits(n)) == Some(n) && ':' !in Digits(n)
  {
    var d := "0123456789"[n % 10];
    assert Digit(d) == Some(n % 10);
    if 10 <= n {
      NumberRoundTrip(n / 10);
      assert Digits(n) == Digits(n / 10) + [d];
      assert Digits(n)[..|Digits(n)| - 1] == Digits(n / 10);
    }
  }

  predicate IsDigit(c: char) {
    '0' <= c <= '9'
  }

  /** Exactly the texts of one or more digits are numbers. */
  lemma {:induction false} NumbersAreDigits(s: string)
    ensures Number(s).Some? <==> s != [] && forall i :: 0 <= i < |s| ==> IsDigit(s[i])
  {
    if s != [] {
      var front := s[..|s| - 1];
      NumbersAreDigits(front);
      assert forall i :: 0 <= i < |front| ==> front[i] == s[i];
    }
  }

  function Endpoint(host: string, port: nat): string {
    host + ":" + Digits(port)
  }

  /** The texts of host and port in a value; None where the source raises IndexError. */
  function HostAndPort(value: string): Option<(string, string)> {
    var pair := Split(value, ':');
    if |pair| < 2 then None else Some((pair[0], pair[1]))
  }

  /** How lookups and notifications read a value back. */
  function ParseEndpoint(value: string): Option<(string, nat)> {
    match HostAndPort(value)
    case None => None
    case Some(at) =>
      match Number(at.1)
      case None => None
      case Some(port) => Some((at.0, port))
  }

  /** What can be read back: a client id with at least five slashes, and a value with a colon, whose port is digits. */
  lemma WhatParses(id: string, value: string)
    ensures ParseClient(id).Some? <==> 5 <= multiset(id)['/']
    ensures HostAndPort(value).Some? <==> ':' in value
    ensures ParseEndpoint(value).Some? <==>
            ':' in value && HostAndPort(value).value.1 != []
            && forall i :: 0 <= i < |HostAndPort(value).value.1| ==> IsDigit(HostAndPort(value).value.1[i])
  {
    SplitCounts(id, '/');
    SplitCounts(value, ':');
    if HostAndPort(value).Some? { NumbersAreDigits(HostAndPort(value).value.1); }
    hide Split, Number;
    assert ':' in value <==> 1 <= multiset(value)[':'];
  }

  /** Consumers get the provider's host and port back. */
  lemma EndpointRoundTrip(host: string, port: nat)
    requires ':' !in host
    ensures ParseEndpoint(Endpoint(host, port)) == Some((host, port))
  {
    hide Split, Digits, Number;
    NumberRoundTrip(port);
    SplitPlain(host, ':');
    SplitColon(host, Digits(port));
  }

  // ---------------------------------------------------------------- actors

  /** Actors have different names, and so different entries in the server's tables. */
  lemma ActorKeysDiffer(app: string, actor: string, app': string, actor': string)
    requires '/' !in app && '/' !in app' && '/' !in actor && '/' !in actor'
    ensures ActorKey(app, actor) == ActorKey(app', actor') <==> app == app' && actor == actor'
    ensures BaseKey(app, actor) == BaseKey(app', actor') <==> app == app' && actor == actor'
  {
    hide Split;
    forall a, b | '/' !in a && '/' !in b ensures Split(ActorKey(a, b), '/') == [a, b] {
      SplitPlain(a, '/');
      SplitSlash(a, b);
    }
    var k, k' := ActorKey(app, actor), ActorKey(app', actor');
    assert Split(k, '/')[0] == app && Split(k, '/')[1] == actor;
    assert Split(k', '/')[0] == app' && Split(k', '/')[1] == actor';
    assert BaseKey(app, actor)[1..|BaseKey(app, actor)| - 1] == k;
    assert BaseKey(app', actor')[1..|BaseKey(app', actor')| - 1] == k';
  }
}
