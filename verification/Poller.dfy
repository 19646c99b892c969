/**
  The sockets of a component thread (ComponentThread in src/riaps/run/comp.py, ConnPort in
  src/riaps/run/port.py): the poller and the tables that say what a readable socket belongs to, while
  ports are connected and reset and groups are joined and left.
 */
module Poller {
  import opened Wrappers

  type Socket = nat
  type Server = (string, int)  // host and port

  // ---------------------------------------------------------------- what the tables should say

  /** A port as the thread sees it: its socket, if it has one, whether messages come in, its index. */
  datatype Plug = Plug(socket: Option<Socket>, input: bool, index: int)

  /** The poller, sock2NameMap, sock2PortMap, sock2GroupMap, portName2GroupMap and sock2PrioMap. */
  datatype Tables = Tables(
    poller: set<Socket>, names: map<Socket, string>, ports: map<Socket, Port>, groups: map<Socket, Group>,
    byName: map<string, Group>, prios: map<Socket, int>)

  /** The socket belongs to the port. */
  ghost predicate Has(plugs: map<string, Plug>, n: string, s: Socket) {
    n in plugs && plugs[n].socket == Some(s)
  }

  ghost predicate Listens(plugs: map<string, Plug>, t: Tables, s: Socket) {
    s in t.ports && t.ports[s].name in plugs && plugs[t.ports[s].name].input
  }

  /** What the tables say about one socket. */
  ghost predicate SocketOk(control: Socket, plugs: map<string, Plug>, t: Tables, s: Socket) {
    && (s in t.ports ==> Has(plugs, t.ports[s].name, s) && s !in t.groups && s != control)
    && (s in t.groups ==>
          t.groups[s].socket == s && t.groups[s].name in t.byName && t.byName[t.groups[s].name] == t.groups[s] && s != control)
    && (s in t.poller <==> s == control || Listens(plugs, t, s) || s in t.groups)
    && (s in t.names <==> s == control || Listens(plugs, t, s))
    && (s in t.names ==> t.names[s] == if s == control then "" else t.ports[s].name)
    && (s in t.prios <==> Listens(plugs, t, s) || s in t.groups)
    && (Listens(plugs, t, s) ==> t.prios[s] == plugs[t.ports[s].name].index)
  }

  ghost predicate PortOk(plugs: map<string, Plug>, t: Tables, n: string) {
    n in plugs && plugs[n].socket.Some? ==> plugs[n].socket.value in t.ports && t.ports[plugs[n].socket.value].name == n
  }

  ghost predicate GroupOk(t: Tables, n: string) {
    n in t.byName ==> t.byName[n].name == n && t.byName[n].socket in t.groups && t.groups[t.byName[n].socket] == t.byName[n]
  }

  /** Sockets are not shared, and every table holds exactly what it should hold. */
  ghost predicate Consistent(control: Socket, plugs: map<string, Plug>, t: Tables) {
    && (forall s :: SocketOk(control, plugs, t, s))
    && (forall n :: PortOk(plugs, t, n))
    && (forall n :: GroupOk(t, n))
  }

  /** Nothing is bound to the socket. */
  ghost predicate Unused(control: Socket, t: Tables, s: Socket) {
    s != control && s !in t.ports && s !in t.groups
  }

  function Opened(control: Socket): Tables {
    Tables({control}, map[control := ""], map[], map[], map[], map[])
  }

  /** setupPoller, one port. */
  function Plugged(t: Tables, port: Port, p: Plug): Tables {
    match p.socket
    case None => t
    case Some(s) =>
      var u := t.(ports := t.ports[s := port]);
      if p.input then u.(poller := t.poller + {s}, names := t.names[s := port.name], prios := t.prios[s := p.index]) else u
  }

  function Unplugged(t: Tables, p: Plug): Tables
  {
    match p.socket
    case None => t
    case Some(s) =>
      var u := t.(ports := t.ports - {s});
      if p.input then u.(poller := t.poller - {s}, names := t.names - {s}, prios := t.prios - {s}) else u
  }

  function Joined(t: Tables, g: Group, priority: int): Tables {
    t.(poller := t.poller + {g.socket}, groups := t.groups[g.socket := g], byName := t.byName[g.name := g],
    prios := t.prios[g.socket := priority])
  }

  function Left(t: Tables, g: Group): Tables {
    t.(poller := t.poller - {g.socket}, groups := t.groups - {g.socket}, byName := t.byName - {g.name},
    prios := t.prios - {g.socket})
  }

  lemma OpenedIsConsistent(control: Socket)
    ensures Consistent(control, map[], Opened(control))
  {
  }

  lemma PluggedIsConsistent(control: Socket, plugs: map<string, Plug>, t: Tables, port: Port, p: Plug)
    requires Consistent(control, plugs, t) && port.name !in plugs && (p.socket.Some? ==> Unused(control, t, p.socket.value))
    ensures Consistent(control, plugs[port.name := p], Plugged(t, port, p))
  {
    hide SocketOk, PortOk, GroupOk, Plugged;
    var plugs', u := plugs[port.name := p], Plugged(t, port, p);
    forall s: Socket ensures SocketOk(control, plugs', u, s) {
      PlugSocket(control, plugs, t, port, p, s);
    }
    forall m ensures PortOk(plugs', u, m) && GroupOk(u, m) {
      PlugNames(control, plugs, t, port, p, m);
    }
  }

  lemma PlugSocket(control: Socket, plugs: map<string, Plug>, t: Tables, port: Port, p: Plug, s: Socket)
    requires SocketOk(control, plugs, t, s) && port.name !in plugs && (p.socket.Some? ==> Unused(control, t, p.socket.value))
    ensures SocketOk(control, plugs[port.name := p], Plugged(t, port, p), s)
  {
  }

  lemma PlugNames(control: Socket, plugs: map<string, Plug>, t: Tables, port: Port, p: Plug, m: string)
    requires PortOk(plugs, t, m) && GroupOk(t, m) && port.name !in plugs && (p.socket.Some? ==> Unused(control, t, p.socket.value))
    ensures PortOk(plugs[port.name := p], Plugged(t, port, p), m) && GroupOk(Plugged(t, port, p), m)
  {
  }

  lemma UnpluggedIsConsistent(control: Socket, plugs: map<string, Plug>, t: Tables, n: string)
    requires Consistent(control, plugs, t) && n in plugs
    ensures Consistent(control, plugs - {n}, Unplugged(t, plugs[n]))
    ensures plugs[n].socket.Some? ==> Unused(control, Unplugged(t, plugs[n]), plugs[n].socket.value)
  {
    assert PortOk(plugs, t, n);
    if plugs[n].socket.Some? { assert SocketOk(control, plugs, t, plugs[n].socket.value); }
    hide SocketOk, PortOk, GroupOk;
    var plugs', u := plugs - {n}, Unplugged(t, plugs[n]);
    forall s: Socket ensures SocketOk(control, plugs', u, s) {
      UnplugSocket(control, plugs, t, n, s);
    }
    forall m ensures PortOk(plugs', u, m) && GroupOk(u, m) {
      UnplugNames(plugs, t, n, m);
    }
  }

  lemma UnplugSocket(control: Socket, plugs: map<string, Plug>, t: Tables, n: string, s: Socket)
    requires SocketOk(control, plugs, t, s) && n in plugs && PortOk(plugs, t, n)
    ensures SocketOk(control, plugs - {n}, Unplugged(t, plugs[n]), s)
  {
  }

  lemma UnplugNames(plugs: map<string, Plug>, t: Tables, n: string, m: string)
    requires n in plugs && PortOk(plugs, t, n) && PortOk(plugs, t, m) && GroupOk(t, m)
    ensures PortOk(plugs - {n}, Unplugged(t, plugs[n]), m) && GroupOk(Unplugged(t, plugs[n]), m)
  {
  }

  lemma JoinedIsConsistent(control: Socket, plugs: map<string, Plug>, t: Tables, g: Group, priority: int)
    requires Consistent(control, plugs, t) && g.name !in t.byName && Unused(control, t, g.socket)
    ensures Consistent(control, plugs, Joined(t, g, priority))
  {
    var u := Joined(t, g, priority);
    forall x: Socket ensures SocketOk(control, plugs, u, x) { assert SocketOk(control, plugs, t, x); }
    forall m ensures PortOk(plugs, u, m) && GroupOk(u, m) { assert PortOk(plugs, t, m) && GroupOk(t, m); }
  }

  lemma LeftIsConsistent(control: Socket, plugs: map<string, Plug>, t: Tables, g: Group)
    requires Consistent(control, plugs, t) && g.name in t.byName && t.byName[g.name] == g
    ensures Consistent(control, plugs, Left(t, g))
  {
    var u := Left(t, g);
    assert GroupOk(t, g.name);
    forall x: Socket ensures SocketOk(control, plugs, u, x) { assert SocketOk(control, plugs, t, x); }
    forall m ensures PortOk(plugs, u, m) && GroupOk(u, m) { assert PortOk(plugs, t, m) && GroupOk(t, m); }
  }

  /** Whatever the poller reports, besides the control socket, is the socket of exactly one input port or of exactly
      one joined group, and has a priority: no handler is looked up for an unbound socket. */
  lemma PolledIsBound(control: Socket, plugs: map<string, Plug>, t: Tables, s: Socket)
    requires Consistent(control, plugs, t)
    ensures s in t.poller && s != control <==>
            (s in t.groups || exists n :: Has(plugs, n, s) && plugs[n].input)
    ensures s in t.poller && s != control ==>
              && s in t.prios
              && (s in t.ports ==> s in t.names && s !in t.groups && Has(plugs, t.ports[s].name, s))
              && (s !in t.ports ==> s in t.groups)
              && (forall m, n :: Has(plugs, m, s) && Has(plugs, n, s) ==> m == n)
  {
    assert SocketOk(control, plugs, t, s);
    forall m | Has(plugs, m, s) ensures s in t.ports && t.ports[s].name == m { assert PortOk(plugs, t, m); }
  }

  /** A port gets another socket. */
  function Replaced(t: Tables, port: Port, old_: Plug, new_: Plug): Tables {
    Plugged(Unplugged(t, old_), port, new_)
  }

  lemma ReplacedIsConsistent(control: Socket, plugs: map<string, Plug>, t: Tables, port: Port, p: Plug)
    requires Consistent(control, plugs, t) && port.name in plugs
    requires p.socket.Some? ==> Unused(control, t, p.socket.value)
    ensures Consistent(control, plugs[port.name := p], Replaced(t, port, plugs[port.name], p))
  {
    var n := port.name;
    UnpluggedIsConsistent(control, plugs, t, n);
    hide Consistent;
    PluggedIsConsistent(control, plugs - {n}, Unplugged(t, plugs[n]), port, p);
    assert (plugs - {n})[n := p] == plugs[n := p];
  }

  /** The ports are filed under their names, and every socket's port is one of them. */
  ghost predicate Filed(ports: map<string, Port>, sockets: map<Socket, Port>) {
    && (forall n :: n in ports ==> ports[n].name == n)
    && (forall s :: s in sockets ==> sockets[s].name in ports && ports[sockets[s].name] == sockets[s])
  }

  lemma ReplacedIsFiled(ports: map<string, Port>, t: Tables, port: Port, old_: Plug, new_: Plug)
    requires Filed(ports, t.ports) && port.name in ports && ports[port.name] == port
    ensures Filed(ports, Replaced(t, port, old_, new_).ports)
  {
  }

  lemma PluggedIsFiled(ports: map<string, Port>, t: Tables, port: Port, p: Plug)
    requires Filed(ports, t.ports) && port.name !in ports
    ensures Filed(ports[port.name := port], Plugged(t, port, p).ports)
  {
  }

  // ---------------------------------------------------------------- sequences of updates, resets, joins and leaves

  datatype Op =
    | Update(port: Port, server: Server)
    | Reset(port: Port, socket: Socket)
    | Join(group: Group, priority: int)
    | Leave(group: Group)

  /** The tables, the servers each open socket is connected to, and the servers each port knows. */
  datatype State = State(
    plugs: map<string, Plug>, tables: Tables, conns: map<Socket, multiset<Server>>, servers: map<string, set<Server>>)

  /** The socket is connected to these servers, once each. */
  function Connected(conns: map<Socket, multiset<Server>>, s: Socket, servers: set<Server>): map<Socket, multiset<Server>> {
    conns[s := multiset(servers)]
  }

  /** The old socket is closed, the new one connected in its place. */
  function Moved(conns: map<Socket, multiset<Server>>, old_: Socket, new_: Socket, servers: set<Server>)
      : map<Socket, multiset<Server>>
  {
    Connected(conns - {old_}, new_, servers)
  }

  /** The port has a socket to connect. */
  ghost predicate Connects(x: State, n: string) {
    n in x.plugs && x.plugs[n].socket.Some? && n in x.servers
  }

  /** What is updated or reset has a socket, new sockets are new, joining a group again changes nothing, and only a
      joined group can be left. */
  ghost predicate Fit(control: Socket, x: State, op: Op) {
    match op
    case Update(p, _) => Connects(x, p.name)
    case Reset(p, s) => Connects(x, p.name) && Unused(control, x.tables, s)
    case Join(g, _) => g.name in x.tables.byName || Unused(control, x.tables, g.socket)
    case Leave(g) => g.name in x.tables.byName && x.tables.byName[g.name] == g
  }

  ghost function Done(x: State, op: Op): State {
    match op
    case Update(p, srv) =>
      if Connects(x, p.name) then
        var servers := x.servers[p.name] + {srv};
        x.(conns := Connected(x.conns, x.plugs[p.name].socket.value, servers), servers := x.servers[p.name := servers])
      else x
    case Reset(p, s) =>
      if Connects(x, p.name) then
        var plug := x.plugs[p.name].(socket := Some(s));
        State(x.plugs[p.name := plug], Replaced(x.tables, p, x.plugs[p.name], plug),
              Moved(x.conns, x.plugs[p.name].socket.value, s, x.servers[p.name]), x.servers)
      else x
    case Join(g, priority) => if g.name in x.tables.byName then x else x.(tables := Joined(x.tables, g, priority))
    case Leave(g) => x.(tables := Left(x.tables, g))
  }

  lemma ResetIs(x: State, p: Port, s: Socket)
    requires Connects(x, p.name)
    ensures var plug := x.plugs[p.name].(socket := Some(s));
            Done(x, Reset(p, s)) ==
            State(x.plugs[p.name := plug], Replaced(x.tables, p, x.plugs[p.name], plug),
                  Moved(x.conns, x.plugs[p.name].socket.value, s, x.servers[p.name]), x.servers)
  {
  }

  ghost predicate AllFit(control: Socket, x: State, ops: seq<Op>)
    decreases |ops|
  {
    ops != [] ==> Fit(control, x, ops[0]) && AllFit(control, Done(x, ops[0]), ops[1..])
  }

  ghost function AllDone(x: State, ops: seq<Op>): State
    decreases |ops|
  {
    if ops == [] then x else AllDone(Done(x, ops[0]), ops[1..])
  }

  /** After any sequence of updates, resets, joins and leaves the poller holds exactly the control socket, the sockets
      of input ports and those of joined groups, and none of them is unbound. */
  lemma {:induction false} NeverUnbound(control: Socket, x: State, ops: seq<Op>, s: Socket)
    requires Consistent(control, x.plugs, x.tables) && AllFit(control, x, ops)
    ensures var u := AllDone(x, ops);
            && Consistent(control, u.plugs, u.tables)
            && (s in u.tables.poller && s != control <==>
                s in u.tables.groups || exists n :: Has(u.plugs, n, s) && u.plugs[n].input)
            && (s in u.tables.poller && s != control ==> s in u.tables.prios && (s in u.tables.ports || s in u.tables.groups))
    decreases |ops|
  {
    if ops == [] {
      PolledIsBound(control, x.plugs, x.tables, s);
    } else {
      OpKeepsConsistent(control, x, ops[0]);
      hide Consistent, Fit, Done;
      NeverUnbound(control, Done(x, ops[0]), ops[1..], s);
    }
  }

  lemma OpKeepsConsistent(control: Socket, x: State, op: Op)
    requires Consistent(control, x.plugs, x.tables) && Fit(control, x, op)
    ensures Consistent(control, Done(x, op).plugs, Done(x, op).tables)
  {
    hide Consistent, Replaced;
    match op
    case Update(_, _) =>
    case Reset(port, s) => ReplacedIsConsistent(control, x.plugs, x.tables, port, x.plugs[port.name].(socket := Some(s)));
    case Join(g, priority) =>
      if g.name !in x.tables.byName { JoinedIsConsistent(control, x.plugs, x.tables, g, priority); }
    case Leave(g) => LeftIsConsistent(control, x.plugs, x.tables, g);
  }

  // ---------------------------------------------------------------- connections of all ports

  /** The port's socket is open and connected to exactly the servers the port knows, once each. */
  ghost predicate WiredAt(x: State, n: string) {
    Connects(x, n) ==> x.plugs[n].socket.value in x.conns && x.conns[x.plugs[n].socket.value] == multiset(x.servers[n])
  }

  ghost predicate AllWired(x: State) {
    && (forall n :: WiredAt(x, n))
    && (forall s :: s in x.conns ==> s in x.tables.ports)
  }

  /** The servers that updates in the sequence told the port of. */
  function Told(ops: seq<Op>, n: string): set<Server> {
    set i | 0 <= i < |ops| && ops[i].Update? && ops[i].port.name == n :: ops[i].server
  }

  lemma SocketsDiffer(control: Socket, x: State, m: string, n: string)
    requires Consistent(control, x.plugs, x.tables) && Connects(x, m) && Connects(x, n) && m != n
    ensures x.plugs[m].socket != x.plugs[n].socket
  {
    assert PortOk(x.plugs, x.tables, m) && PortOk(x.plugs, x.tables, n);
  }

  lemma UpdateKeepsWired(control: Socket, x: State, p: Port, srv: Server, n: string)
    requires Consistent(control, x.plugs, x.tables) && Connects(x, p.name) && WiredAt(x, n)
    ensures WiredAt(Done(x, Update(p, srv)), n)
  {
    if n != p.name && Connects(x, n) { SocketsDiffer(control, x, n, p.name); }
  }

  lemma ResetKeepsWired(control: Socket, x: State, p: Port, s: Socket, n: string)
    requires Consistent(control, x.plugs, x.tables) && Connects(x, p.name) && Unused(control, x.tables, s) && WiredAt(x, n)
    ensures WiredAt(Done(x, Reset(p, s)), n)
  {
    if n != p.name && Connects(x, n) {
      SocketsDiffer(control, x, n, p.name);
      assert PortOk(x.plugs, x.tables, n);
    }
    hide Consistent, Replaced;
  }

  /** No operation leaves a socket open that no port has. */
  lemma OpKeepsOwned(control: Socket, x: State, op: Op, s: Socket)
    requires Consistent(control, x.plugs, x.tables) && Fit(control, x, op) && (s in x.conns ==> s in x.tables.ports)
    ensures s in Done(x, op).conns ==> s in Done(x, op).tables.ports
  {
    if op.Update? { assert PortOk(x.plugs, x.tables, op.port.name); }
    hide Consistent;
  }

  lemma OpKeepsWired(control: Socket, x: State, op: Op)
    requires Consistent(control, x.plugs, x.tables) && Fit(control, x, op) && AllWired(x)
    ensures AllWired(Done(x, op))
  {
    hide Consistent;
    forall s: Socket | s in Done(x, op).conns ensures s in Done(x, op).tables.ports { OpKeepsOwned(control, x, op, s); }
    hide Done, WiredAt;
    forall n ensures WiredAt(Done(x, op), n) {
      assert WiredAt(x, n);
      OpKeepsPortWired(control, x, op, n);
    }
  }

  lemma OpKeepsPortWired(control: Socket, x: State, op: Op, n: string)
    requires Consistent(control, x.plugs, x.tables) && Fit(control, x, op) && WiredAt(x, n)
    ensures WiredAt(Done(x, op), n)
  {
    hide Consistent;
    match op
    case Update(p, srv) => UpdateKeepsWired(control, x, p, srv, n);
    case Reset(p, s) => ResetKeepsWired(control, x, p, s, n);
    case _ =>
  }

  lemma OpTells(control: Socket, x: State, ops: seq<Op>, n: string)
    requires ops != [] && Fit(control, x, ops[0]) && n in x.servers
    ensures n in Done(x, ops[0]).servers
    ensures x.servers[n] + Told(ops, n) == Done(x, ops[0]).servers[n] + Told(ops[1..], n)
  {
    var rest := ops[1..];
    forall srv ensures srv in Told(ops, n) <==> srv in Told(rest, n) || (ops[0].Update? && ops[0].port.name == n && srv == ops[0].server) {
      if srv in Told(rest, n) {
        var i :| 0 <= i < |rest| && rest[i].Update? && rest[i].port.name == n && rest[i].server == srv;
        assert ops[i + 1] == rest[i];
      }
      if srv in Told(ops, n) {
        var i :| 0 <= i < |ops| && ops[i].Update? && ops[i].port.name == n && ops[i].server == srv;
        if 0 < i { assert rest[i - 1] == ops[i]; }
      }
    }
  }

  /** After any sequence of updates, resets, joins and leaves, every port's current socket is connected to exactly
      the servers it started with and those it was told of, once each; and every open socket belongs to a port. */
  lemma {:induction false} ConnectionsFollowServers(control: Socket, x: State, ops: seq<Op>)
    requires Consistent(control, x.plugs, x.tables) && AllFit(control, x, ops) && AllWired(x)
    ensures AllWired(AllDone(x, ops))
    ensures forall n :: Connects(x, n) ==>
              && Connects(AllDone(x, ops), n)
              && AllDone(x, ops).plugs[n].socket.value in AllDone(x, ops).conns
              && AllDone(x, ops).conns[AllDone(x, ops).plugs[n].socket.value] == multiset(x.servers[n] + Told(ops, n))
    decreases |ops|
  {
    hide Consistent, AllWired;
    if ops == [] {
      forall n | Connects(x, n) ensures x.servers[n] + Told(ops, n) == x.servers[n] && WiredAt(x, n) {
        PortIsWired(x, n);
      }
    } else {
      OpKeepsConsistent(control, x, ops[0]);
      OpKeepsWired(control, x, ops[0]);
      ConnectionsFollowServers(control, Done(x, ops[0]), ops[1..]);
      forall n | Connects(x, n)
        ensures Connects(Done(x, ops[0]), n) && x.servers[n] + Told(ops, n) == Done(x, ops[0]).servers[n] + Told(ops[1..], n)
      {
        OpTells(control, x, ops, n);
      }
      hide Done, Told;
    }
  }

  lemma PortIsWired(x: State, n: string)
    requires AllWired(x)
    ensures WiredAt(x, n)
  {
  }

  // ---------------------------------------------------------------- priorities of groups

  /** The group is joined, and its messages have this priority. */
  ghost predicate JoinedAt(t: Tables, g: Group, priority: int) {
    g.name in t.byName && t.byName[g.name] == g && g.socket in t.prios && t.prios[g.socket] == priority
  }

  lemma OpKeepsJoined(control: Socket, x: State, op: Op, g: Group, priority: int)
    requires Consistent(control, x.plugs, x.tables) && Fit(control, x, op) && JoinedAt(x.tables, g, priority)
    ensures op != Leave(g) ==> JoinedAt(Done(x, op).tables, g, priority)
    ensures op == Leave(g) ==> g.name !in Done(x, op).tables.byName && g.socket !in Done(x, op).tables.prios
  {
    assert GroupOk(x.tables, g.name) && SocketOk(control, x.plugs, x.tables, g.socket);
    if op.Reset? { assert PortOk(x.plugs, x.tables, op.port.name); }
    if op.Leave? { assert GroupOk(x.tables, op.group.name); }
    hide Consistent;
  }

  lemma {:induction false} StaysJoined(control: Socket, x: State, ops: seq<Op>, g: Group, priority: int)
    requires Consistent(control, x.plugs, x.tables) && AllFit(control, x, ops) && JoinedAt(x.tables, g, priority) && Leave(g) !in ops
    ensures JoinedAt(AllDone(x, ops).tables, g, priority)
    decreases |ops|
  {
    hide Consistent, Fit, Done, JoinedAt;
    if ops != [] {
      OpKeepsConsistent(control, x, ops[0]);
      OpKeepsJoined(control, x, ops[0], g, priority);
      StaysJoined(control, Done(x, ops[0]), ops[1..], g, priority);
    }
  }

  /** A group that is joined keeps the priority it was joined with, whatever is updated, reset, joined or left, until
      it is left itself. */
  lemma GroupsKeepTheirPriority(control: Socket, x: State, ops: seq<Op>, g: Group, priority: int)
    requires Consistent(control, x.plugs, x.tables) && g.name !in x.tables.byName && ops != [] && ops[0] == Join(g, priority)
    requires AllFit(control, x, ops) && Leave(g) !in ops[1..]
    ensures JoinedAt(AllDone(x, ops).tables, g, priority)
  {
    OpKeepsConsistent(control, x, ops[0]);
    assert JoinedAt(Done(x, ops[0]).tables, g, priority);
    hide Consistent, Done, Fit, JoinedAt;
    StaysJoined(control, Done(x, ops[0]), ops[1..], g, priority);
  }

  // ---------------------------------------------------------------- entries that wait while sockets change

  ghost predicate Bound(t: Tables, s: Socket) {
    s in t.ports || s in t.groups
  }

  predicate Introduces(op: Op, s: Socket) {
    (op.Reset? && op.socket == s) || (op.Join? && op.group.socket == s)
  }

  /** The operation resets the port of the socket, or leaves its group. */
  ghost predicate Unbinds(t: Tables, op: Op, s: Socket) {
    match op
    case Reset(p, _) => s in t.ports && t.ports[s].name == p.name
    case Leave(g) => g.socket == s
    case _ => false
  }

  lemma OpBindings(control: Socket, x: State, op: Op, s: Socket)
    requires Consistent(control, x.plugs, x.tables) && Fit(control, x, op) && !Introduces(op, s)
    ensures !Bound(x.tables, s) || Unbinds(x.tables, op, s) ==> !Bound(Done(x, op).tables, s)
    ensures Bound(x.tables, s) && !Unbinds(x.tables, op, s) ==>
              && (s in Done(x, op).tables.ports <==> s in x.tables.ports)
              && (s in Done(x, op).tables.groups <==> s in x.tables.groups)
              && (s in x.tables.ports ==> Done(x, op).tables.ports[s] == x.tables.ports[s])
              && (s in x.tables.groups ==> Done(x, op).tables.groups[s] == x.tables.groups[s])
  {
    assert SocketOk(control, x.plugs, x.tables, s);
    if op.Reset? { assert PortOk(x.plugs, x.tables, op.port.name); }
    if op.Leave? { assert GroupOk(x.tables, op.group.name); }
    hide Consistent;
  }

  lemma {:induction false} StaysUnbound(control: Socket, x: State, ops: seq<Op>, s: Socket)
    requires Consistent(control, x.plugs, x.tables) && AllFit(control, x, ops)
    requires !Bound(x.tables, s) && forall i :: 0 <= i < |ops| ==> !Introduces(ops[i], s)
    ensures !Bound(AllDone(x, ops).tables, s)
    decreases |ops|
  {
    hide Consistent, Fit, Done, Bound, Introduces;
    if ops != [] {
      OpKeepsConsistent(control, x, ops[0]);
      OpBindings(control, x, ops[0], s);
      StaysUnbound(control, Done(x, ops[0]), ops[1..], s);
    }
  }

  /** A socket that was bound when it was queued is bound when its entry runs exactly unless its port was reset or its
      group left in between; then it is still the same port's or group's. */
  lemma {:induction false} BoundAtExecution(control: Socket, x: State, ops: seq<Op>, s: Socket)
    requires Consistent(control, x.plugs, x.tables) && AllFit(control, x, ops)
    requires Bound(x.tables, s) && forall i :: 0 <= i < |ops| ==> !Introduces(ops[i], s)
    ensures Bound(AllDone(x, ops).tables, s) <==> forall i :: 0 <= i < |ops| ==> !Unbinds(x.tables, ops[i], s)
    ensures Bound(AllDone(x, ops).tables, s) ==>
              if s in x.tables.ports then s in AllDone(x, ops).tables.ports && AllDone(x, ops).tables.ports[s] == x.tables.ports[s]
              else s in AllDone(x, ops).tables.groups && AllDone(x, ops).tables.groups[s] == x.tables.groups[s]
    decreases |ops|
  {
    if ops != [] {
      var d, rest := Done(x, ops[0]), ops[1..];
      OpKeepsConsistent(control, x, ops[0]);
      OpBindings(control, x, ops[0], s);
      hide Consistent, Fit, Done;
      if Unbinds(x.tables, ops[0], s) {
        StaysUnbound(control, d, rest, s);
      } else {
        BoundAtExecution(control, d, rest, s);
        assert forall op :: Unbinds(d.tables, op, s) <==> Unbinds(x.tables, op, s);
        assert forall i :: 0 <= i < |rest| ==> rest[i] == ops[i + 1];
        assert forall i :: 0 < i < |ops| ==> ops[i] == rest[i - 1];
      }
    }
  }

  // ---------------------------------------------------------------- the objects

  /** The open sockets of the messaging library, each with the servers it is connected to. */
  class Context {
    var conns: map<Socket, multiset<Server>>
    var next: Socket

    ghost predicate Valid()
      reads this
    {
      forall s :: s in conns ==> s < next
    }

    constructor ()
      ensures Valid() && conns == map[]
    {
      conns, next := map[], 0;
    }

    method NewSocket() returns (s: Socket)
      requires Valid()
      modifies this
      ensures Valid() && s == old(next) && next == s + 1 && s !in old(conns) && conns == old(conns)[s := multiset{}]
    {
      s := next;
      conns := conns[s := multiset{}];
      next := next + 1;
    }

    method Connect(s: Socket, srv: Server)
      requires s in conns
      modifies this`conns
      ensures conns == old(conns)[s := old(conns)[s] + multiset{srv}]
    {
      conns := conns[s := conns[s] + multiset{srv}];
    }

    method Disconnect(s: Socket, srv: Server)
      requires s in conns && srv in conns[s]
      modifies this`conns
      ensures conns == old(conns)[s := old(conns)[s] - multiset{srv}]
    {
      conns := conns[s := conns[s] - multiset{srv}];
    }

    method Close(s: Socket)
      modifies this`conns
      ensures conns == old(conns) - {s}
    {
      conns := conns - {s};
    }
  }

  class Group {
    const name: string
    const socket: Socket

    constructor (name: string, socket: Socket)
      ensures this.name == name && this.socket == socket
    {
      this.name, this.socket := name, socket;
    }
  }

  class Port {
    const name: string
    const input: bool
    const index: int
    const deadline: int  // of the port's handler, zero for none
    const context: Context
    var socket: Option<Socket>
    var servers: set<Server>

    function View(): Plug
      reads this`socket
    {
      Plug(socket, input, index)
    }

    constructor (name: string, input: bool, index: int, deadline: int, context: Context)
      ensures this.name == name && View() == Plug(None, input, index) && this.context == context && servers == {}
      ensures this.deadline == deadline
    {
      this.name, this.input, this.index, this.deadline, this.context := name, input, index, deadline, context;
      socket, servers := None, {};
    }

    /** The current socket is connected to every known server, once each, and to nothing else. */
    ghost predicate Wired()
      reads this, context
    {
      socket.Some? && socket.value in context.conns && context.conns[socket.value] == multiset(servers)
    }

    /** ConnPort.update */
    method Update(host: string, port: int)
      requires Wired()
      modifies this`servers, context`conns
      ensures Wired() && servers == old(servers) + {(host, port)}
      ensures context.conns == Connected(old(context.conns), socket.value, servers)
    {
      if (host, port) !in servers {
        servers := servers + {(host, port)};
        context.Connect(socket.value, (host, port));
      }
    }

    /** Disconnect the current socket from every server. */
    method DisconnectAll()
      requires Wired()
      modifies context`conns
      ensures socket.value in context.conns && context.conns - {socket.value} == old(context.conns) - {socket.value}
    {
      var rest := servers;
      while rest != {}
        invariant rest <= servers && socket.value in context.conns && context.conns[socket.value] == multiset(rest)
        invariant context.conns - {socket.value} == old(context.conns) - {socket.value}
        decreases rest
      {
        var srv :| srv in rest;
        context.Disconnect(socket.value, srv);
        rest := rest - {srv};
      }
    }

    /** Connect the current socket to every server. */
    method ConnectAll()
      requires socket.Some? && socket.value in context.conns && context.conns[socket.value] == multiset{}
      modifies context`conns
      ensures Wired() && context.conns == old(context.conns)[socket.value := multiset(servers)]
    {
      var rest := servers;
      while rest != {}
        invariant rest <= servers && socket.value in context.conns && context.conns[socket.value] == multiset(servers - rest)
        invariant context.conns == old(context.conns)[socket.value := multiset(servers - rest)]
        decreases rest
      {
        var srv :| srv in rest;
        context.Connect(socket.value, srv);
        rest := rest - {srv};
      }
      assert servers - rest == servers;
    }

    /** A new socket takes over in the thread's tables and in the port. */
    method TakeOver(owner: ComponentThread, newSocket: Socket)
      requires owner.Valid() && owner.context == context && socket.Some?
      requires name in owner.ports && owner.ports[name] == this && Unused(owner.control, owner.View(), newSocket)
      modifies this`socket, owner, context`conns
      ensures owner.Valid() && owner.ports == old(owner.ports)
      ensures owner.View() == Replaced(old(owner.View()), this, old(View()), View())
      ensures socket == Some(newSocket) && context.conns == old(context.conns) - {old(socket).value}
    {
      hide Consistent, Replaced;
      owner.ReplaceSocket(this, newSocket);
      ghost var plugs := owner.Plugs()[name := Plug(Some(newSocket), input, index)];
      socket := Some(newSocket);
      assert owner.Plugs() == plugs;
    }

    /** A new socket, connected to the same servers, in place of the old one. */
    method Reopen(owner: ComponentThread)
      requires Wired() && context.Valid() && owner.Valid() && owner.context == context
      requires name in owner.ports && owner.ports[name] == this
      requires forall s :: context.next <= s ==> Unused(owner.control, owner.View(), s)
      modifies this`socket, owner, context
      ensures Wired() && servers == old(servers) && context.Valid()
      ensures socket == Some(old(context.next)) && context.next == old(context.next) + 1
      ensures context.conns == Moved(old(context.conns), old(socket).value, socket.value, servers)
      ensures owner.Valid() && owner.ports == old(owner.ports)
      ensures owner.View() == Replaced(old(owner.View()), this, old(View()), View())
    {
      hide Consistent, Replaced;
      var newSocket := context.NewSocket();
      DisconnectAll();
      TakeOver(owner, newSocket);
      ConnectAll();
    }

    /** ConnPort.resetConnSocket */
    method ResetConnSocket(owner: ComponentThread)
      requires Wired() && context.Valid() && owner.Valid() && owner.context == context
      requires name in owner.ports && owner.ports[name] == this
      requires forall s :: context.next <= s ==> Unused(owner.control, owner.View(), s)
      modifies this`socket, owner, context
      ensures Wired() && servers == old(servers) && context.Valid()
      ensures socket == Some(old(context.next)) && context.next == old(context.next) + 1
      ensures owner.Valid() && owner.ports == old(owner.ports)
      ensures owner.Now() == Done(old(owner.Now()), Reset(this, socket.value))
    {
      hide Consistent, Replaced, Done, Moved, Unused;
      ghost var before, plugs, servers := owner.Now(), owner.Plugs(), owner.Now().servers;
      Reopen(owner);
      assert owner.Plugs() == plugs[name := View()];
      assert owner.Now().servers == servers;
      ResetIs(before, this, socket.value);
    }
  }

  /** What the thread runs for a readable socket. The name of a port that takes no messages raises KeyError. */
  datatype Handler = ForPort(name: string) | ForGroup(group: Group) | NoName | Unbound

  /** How the handler went: it raised, or it took some time; the component's handler of missed deadlines may raise. */
  datatype Outcome = HandlerRaised | Took(time: int, lateRaises: bool)

  /** What the thread reports of it. */
  datatype Report = Late | Failed

  class ComponentThread {
    const control: Socket
    const context: Context
    var ports: map<string, Port>
    var poller: set<Socket>
    var sock2NameMap: map<Socket, string>
    var sock2PortMap: map<Socket, Port>
    var sock2GroupMap: map<Socket, Group>
    var portName2GroupMap: map<string, Group>
    var sock2PrioMap: map<Socket, int>

    ghost function View(): Tables
      reads this
    {
      Tables(poller, sock2NameMap, sock2PortMap, sock2GroupMap, portName2GroupMap, sock2PrioMap)
    }

    ghost function Plugs(): map<string, Plug>
      reads this`ports, ports.Values
    {
      map n | n in ports :: ports[n].View()
    }

    ghost predicate Valid()
      reads this, ports.Values
    {
      && Filed(ports, sock2PortMap)
      && Consistent(control, Plugs(), View())
    }

    /** Everything the operations change: the ports, the tables and the connections. */
    ghost function Now(): State
      reads this, ports.Values, context
    {
      State(Plugs(), View(), context.conns, map n | n in ports :: ports[n].servers)
    }

    method Unregister(p: Port, oldSocket: Socket)
      modifies this`poller, this`sock2NameMap, this`sock2PortMap, this`sock2PrioMap
      ensures View() == Unplugged(old(View()), Plug(Some(oldSocket), p.input, p.index))
    {
      sock2PortMap := sock2PortMap - {oldSocket};
      if p.input {
        poller := poller - {oldSocket};
        sock2NameMap := sock2NameMap - {oldSocket};
        sock2PrioMap := sock2PrioMap - {oldSocket};
      }
    }

    method Register(p: Port, newSocket: Socket)
      modifies this`poller, this`sock2NameMap, this`sock2PortMap, this`sock2PrioMap
      ensures View() == Plugged(old(View()), p, Plug(Some(newSocket), p.input, p.index))
    {
      sock2PortMap := sock2PortMap[newSocket := p];
      if p.input {
        poller := poller + {newSocket};
        sock2NameMap := sock2NameMap[newSocket := p.name];
        sock2PrioMap := sock2PrioMap[newSocket := p.index];
      }
    }

    method ReplaceSocket(p: Port, newSocket: Socket)
      requires Valid() && p.name in ports && ports[p.name] == p && p.socket.Some? && p.context == context
      requires Unused(control, View(), newSocket)
      modifies this`poller, this`sock2NameMap, this`sock2PortMap, this`sock2PrioMap, context`conns
      ensures View() == Replaced(old(View()), p, p.View(), Plug(Some(newSocket), p.input, p.index))
      ensures Consistent(control, Plugs()[p.name := Plug(Some(newSocket), p.input, p.index)], View())
      ensures Filed(ports, sock2PortMap)
      ensures context.conns == old(context.conns) - {p.socket.value}
    {
      ReplacedIsFiled(ports, View(), p, p.View(), Plug(Some(newSocket), p.input, p.index));
      hide Consistent, Unplugged, Plugged;
      ReplacedIsConsistent(control, Plugs(), View(), p, Plug(Some(newSocket), p.input, p.index));
      var oldSocket := p.socket.value;
      Unregister(p, oldSocket);
      context.Close(oldSocket);
      Register(p, newSocket);
    }

    method AddGroupSocket(group: Group, groupPriority: int)
      requires Valid() && group.name !in portName2GroupMap && Unused(control, View(), group.socket)
      modifies this`poller, this`sock2GroupMap, this`portName2GroupMap, this`sock2PrioMap
      ensures Valid() && Now() == Done(old(Now()), Join(group, groupPriority))
    {
      hide Consistent;
      JoinedIsConsistent(control, Plugs(), View(), group, groupPriority);
      RegisterGroup(group, groupPriority);
      assert Plugs() == old(Plugs());
    }

    method RegisterGroup(group: Group, groupPriority: int)
      modifies this`poller, this`sock2GroupMap, this`portName2GroupMap, this`sock2PrioMap
      ensures View() == Joined(old(View()), group, groupPriority)
    {
      poller := poller + {group.socket};
      sock2GroupMap := sock2GroupMap[group.socket := group];
      portName2GroupMap := portName2GroupMap[group.name := group];
      sock2PrioMap := sock2PrioMap[group.socket := groupPriority];
    }

    method UnregisterGroup(group: Group)
      modifies this`poller, this`sock2GroupMap, this`portName2GroupMap, this`sock2PrioMap
      ensures View() == Left(old(View()), group)
    {
      poller := poller - {group.socket};
      sock2GroupMap := sock2GroupMap - {group.socket};
      portName2GroupMap := portName2GroupMap - {group.name};
      sock2PrioMap := sock2PrioMap - {group.socket};
    }

    method DelGroupSocket(group: Group)
      requires Valid() && group.name in portName2GroupMap && portName2GroupMap[group.name] == group
      modifies this`poller, this`sock2GroupMap, this`portName2GroupMap, this`sock2PrioMap
      ensures Valid() && Now() == Done(old(Now()), Leave(group))
    {
      hide Consistent;
      LeftIsConsistent(control, Plugs(), View(), group);
      UnregisterGroup(group);
      assert Plugs() == old(Plugs());
    }

    /** The tables before any port is known: only the control socket is polled. */
    constructor (control: Socket, context: Context)
      ensures Valid() && ports == map[] && View() == Opened(control)
      ensures this.control == control && this.context == context
    {
      this.control, this.context := control, context;
      ports, poller, sock2NameMap, sock2PortMap := map[], {control}, map[control := ""], map[];
      sock2GroupMap, portName2GroupMap, sock2PrioMap := map[], map[], map[];
      OpenedIsConsistent(control);
    }

    /** One round of setupPoller's loop over the ports. */
    method SetupPort(p: Port)
      requires Valid() && p.name !in ports && (p.socket.Some? ==> Unused(control, View(), p.socket.value))
      modifies this`ports, this`poller, this`sock2NameMap, this`sock2PortMap, this`sock2PrioMap
      ensures Valid() && ports == old(ports)[p.name := p]
      ensures View() == Plugged(old(View()), p, p.View())
    {
      PluggedIsFiled(ports, View(), p, p.View());
      hide Consistent, Plugged, Unused, Filed;
      PluggedIsConsistent(control, Plugs(), View(), p, p.View());
      AddPort(p);
      if p.socket.Some? { Register(p, p.socket.value); }
    }

    method AddPort(p: Port)
      modifies this`ports
      ensures ports == old(ports)[p.name := p] && Plugs() == old(Plugs())[p.name := p.View()]
    {
      ports := ports[p.name := p];
    }

    /** The command that passes on an update of the discovery service. The update of a group goes to the group. */
    method PortUpdate(portName: string, host: string, port: int)
      requires Valid() && (portName in ports ==> ports[portName].context == context && ports[portName].Wired())
      modifies ports.Values`servers, context`conns
      ensures Valid()
      ensures Now() == if portName in ports then Done(old(Now()), Update(ports[portName], (host, port))) else old(Now())
    {
      hide Consistent;
      ghost var plugs, servers := Plugs(), Now().servers;
      if portName in ports {
        var p := ports[portName];
        p.Update(host, port);
        assert Plugs() == plugs;
        assert Now().servers == servers[portName := p.servers];
      }
    }

    /** Which handler runs for a socket, and what is reported of it. What the poller reports is never unbound. */
    method ExecuteHandlerFor(s: Socket, o: Outcome) returns (h: Handler, reports: seq<Report>)
      requires Valid()
      ensures Late in reports <==> h.ForPort? && h.name in ports && o.Took? && ports[h.name].deadline != 0 && ports[h.name].deadline < o.time
      ensures Failed in reports <==> (o.HandlerRaised? && (h.ForPort? || h.ForGroup?)) || (Late in reports && o.lateRaises)
      ensures |reports| <= 2 && (|reports| == 2 ==> reports == [Late, Failed])
      ensures h != Unbound <==> Bound(View(), s)
      ensures s in poller && s != control ==> (h.ForPort? || h.ForGroup?) && s in sock2PrioMap
      ensures match h
              case ForPort(n) => n in ports && ports[n].socket == Some(s) && ports[n].input
              case ForGroup(g) => g.name in portName2GroupMap && portName2GroupMap[g.name].socket == s && g.socket == s
              case NoName => exists n :: n in ports && ports[n].socket == Some(s) && !ports[n].input
              case Unbound => forall n :: n in ports ==> ports[n].socket != Some(s)
    {
      PolledIsBound(control, Plugs(), View(), s);
      assert SocketOk(control, Plugs(), View(), s);
      if s in sock2PortMap {
        if s !in sock2NameMap {
          assert ports[sock2PortMap[s].name].socket == Some(s);
          return NoName, [];
        }
        h, reports := ForPort(sock2NameMap[s]), [];
        match o {
          case HandlerRaised => reports := [Failed];
          case Took(time, lateRaises) =>
            var deadline := sock2PortMap[s].deadline;
            if deadline != 0 && deadline < time {
              reports := [Late];
              if lateRaises { reports := reports + [Failed]; }
            }
        }
      } else if s in sock2GroupMap {
        h := ForGroup(sock2GroupMap[s]);
        reports := if o.HandlerRaised? then [Failed] else [];
      } else {
        forall n | n in ports ensures ports[n].socket != Some(s) { assert PortOk(Plugs(), View(), n); }
        h, reports := Unbound, [];
      }
    }
  }
}
