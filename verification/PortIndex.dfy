/**
  Port indices (RiapsModel2JSON.getPorts in src/riaps/lang/lang.py): ports that receive messages are
  numbered in the order of their declaration; the scheduler uses the numbers as priorities.
 */
module PortIndex {

  datatype PortClass =
    PubPort | SubPort | ClntPort | SrvPort | ReqPort | RepPort | TimPort | InsPort | QryPort | AnsPort | OtherClass

  datatype Port = Port(name: string, class_: PortClass)

  /** What a port's entry says about its index; publishers and clients have none. */
  datatype PortObj = Indexed(index: nat) | Plain

  datatype Failure = NotUnique(name: string) | UnknownType(name: string)

  /** The ten tables of the source, one per class of port, as one keyed by class and name. */
  type Tables = map<(PortClass, string), PortObj>

  datatype Result = Ports(tables: Tables) | Fail(error: Failure)

  predicate IsInput(c: PortClass) {
    c != PubPort && c != ClntPort && c != OtherClass
  }

  function Inputs(ports: seq<Port>): nat {
    if ports == [] then 0
    else Inputs(ports[..|ports| - 1]) + if IsInput(ports[|ports| - 1].class_) then 1 else 0
  }

  /** The index of the port declared at position i. */
  function Entry(ports: seq<Port>, i: nat): PortObj
    requires i < |ports|
  {
    if IsInput(ports[i].class_) then Indexed(1 + Inputs(ports[..i])) else Plain
  }

  ghost predicate Unique(ports: seq<Port>) {
    forall i, j :: 0 <= i < j < |ports| ==> ports[i].name != ports[j].name
  }

  ghost predicate Known(ports: seq<Port>) {
    forall i :: 0 <= i < |ports| ==> ports[i].class_ != OtherClass
  }

  ghost predicate InPlace(t: Tables, ports: seq<Port>, i: nat)
    requires i < |ports|
  {
    var p := ports[i];
    (p.class_, p.name) in t && t[(p.class_, p.name)] == Entry(ports, i)
  }

  ghost predicate Declared(ports: seq<Port>, c: PortClass, n: string) {
    exists i :: 0 <= i < |ports| && ports[i] == Port(n, c)
  }

  ghost predicate AllInPlace(t: Tables, ports: seq<Port>) {
    forall i :: 0 <= i < |ports| ==> InPlace(t, ports, i)
  }

  ghost predicate AllDeclared(t: Tables, ports: seq<Port>) {
    forall k :: k in t ==> Declared(ports, k.0, k.1)
  }

  /** One table per class of port, each port in the table of its class and nowhere else. */
  ghost predicate Tabulates(t: Tables, ports: seq<Port>) {
    AllInPlace(t, ports) && AllDeclared(t, ports)
  }

  /** The first port that is wrong, and how. */
  ghost predicate FirstWrong(ports: seq<Port>, i: nat, f: Failure)
    requires i < |ports|
  {
    && Unique(ports[..i]) && Known(ports[..i])
    && match f
       case NotUnique(n) => ports[i].name == n && !Unique(ports[..i + 1])
       case UnknownType(n) => ports[i].name == n && ports[i].class_ == OtherClass && Unique(ports[..i + 1])
  }

  method GetPorts(ports: seq<Port>) returns (r: Result)
    ensures r.Ports? <==> Unique(ports) && Known(ports)
    ensures r.Ports? ==> Tabulates(r.tables, ports)
    ensures r.Ports? ==> forall k :: k in r.tables && r.tables[k].Indexed? ==>
                           k.0 in {SubPort, SrvPort, ReqPort, RepPort, TimPort, InsPort, QryPort, AnsPort}
    ensures r.Ports? ==> forall k :: k in r.tables && r.tables[k].Plain? ==> k.0 in {PubPort, ClntPort}
    ensures r.Fail? ==> exists i :: 0 <= i < |ports| && FirstWrong(ports, i, r.error)
  {
    hide Inputs, Tabulates, Unique, Known;
    var tables: Tables := map[];
    var portNames: seq<string> := [];
    var portIndex := 1;
    NoPorts();
    for i := 0 to |ports|
      invariant |portNames| == i && forall j :: 0 <= j < i ==> portNames[j] == ports[j].name
      invariant portIndex == 1 + Inputs(ports[..i])
      invariant Unique(ports[..i]) && Known(ports[..i])
      invariant Tabulates(tables, ports[..i])
    {
      var port := ports[i];
      OneMore(ports, i);
      if port.name in portNames {
        assert FirstWrong(ports, i, NotUnique(port.name));
        return Fail(NotUnique(port.name));
      }
      portNames := portNames + [port.name];
      if port.class_ == OtherClass {
        assert FirstWrong(ports, i, UnknownType(port.name));
        return Fail(UnknownType(port.name));
      }
      Advance(tables, ports[..i], port);
      if IsInput(port.class_) {
        tables := tables[(port.class_, port.name) := Indexed(portIndex)];
        portIndex := portIndex + 1;
      } else {
        tables := tables[(port.class_, port.name) := Plain];
      }
    }
    assert ports[..|ports|] == ports;
    r := Ports(tables);
    forall k | k in tables ensures tables[k].Indexed? <==> k.0 !in {PubPort, ClntPort}
      ensures k.0 != OtherClass
    {
      ClassDecides(tables, ports, k);
    }
  }

  /** A port has an index exactly if its class is neither of the two that only send. */
  lemma ClassDecides(t: Tables, ports: seq<Port>, k: (PortClass, string))
    requires Tabulates(t, ports) && Known(ports) && k in t
    ensures t[k].Indexed? <==> k.0 !in {PubPort, ClntPort}
    ensures k.0 != OtherClass
  {
    assert Declared(ports, k.0, k.1);
    var i :| 0 <= i < |ports| && ports[i] == Port(k.1, k.0);
    assert InPlace(t, ports, i);
  }

  /** Whether the ports up to and including port i are all right, and what that says about all of them. */
  lemma OneMore(ports: seq<Port>, i: nat)
    requires i < |ports|
    ensures ports[..i] + [ports[i]] == ports[..i + 1]
    ensures Unique(ports[..i + 1]) <==> Unique(ports[..i]) && forall j :: 0 <= j < i ==> ports[j].name != ports[i].name
    ensures Known(ports[..i + 1]) <==> Known(ports[..i]) && ports[i].class_ != OtherClass
    ensures Unique(ports) ==> Unique(ports[..i + 1])
    ensures Known(ports) ==> Known(ports[..i + 1])
  {
  }

  lemma NoPorts()
    ensures Tabulates(map[], []) && Inputs([]) == 0 && Unique([]) && Known([])
  {
  }

  lemma EntryMore(ports: seq<Port>, p: Port, i: nat)
    requires i <= |ports|
    ensures Entry(ports + [p], i) ==
            if i < |ports| then Entry(ports, i) else if IsInput(p.class_) then Indexed(1 + Inputs(ports)) else Plain
    ensures Inputs(ports + [p]) == Inputs(ports) + if IsInput(p.class_) then 1 else 0
  {
    assert (ports + [p])[..i] == ports[..i];
    assert (ports + [p])[..|ports|] == ports;
    assert ports[..|ports|] == ports;
  }

  lemma AdvancePlaces(t: Tables, ports: seq<Port>, p: Port, i: nat)
    requires i <= |ports| && (i < |ports| ==> InPlace(t, ports, i) && ports[i].name != p.name)
    ensures var obj := if IsInput(p.class_) then Indexed(1 + Inputs(ports)) else Plain;
            InPlace(t[(p.class_, p.name) := obj], ports + [p], i)
  {
    hide Inputs, Entry;
    EntryMore(ports, p, i);
  }

  lemma AdvanceDeclared(ports: seq<Port>, p: Port, c: PortClass, n: string)
    requires (c == p.class_ && n == p.name) || Declared(ports, c, n)
    ensures Declared(ports + [p], c, n)
  {
    if Declared(ports, c, n) {
      var i :| 0 <= i < |ports| && ports[i] == Port(n, c);
      assert (ports + [p])[i] == Port(n, c);
    } else {
      assert (ports + [p])[|ports|] == Port(n, c);
    }
  }

  lemma AdvanceAllDeclared(t: Tables, ports: seq<Port>, p: Port, obj: PortObj)
    requires AllDeclared(t, ports)
    ensures AllDeclared(t[(p.class_, p.name) := obj], ports + [p])
  {
    hide Declared;
    var u := t[(p.class_, p.name) := obj];
    forall k | k in u ensures Declared(ports + [p], k.0, k.1) {
      if k != (p.class_, p.name) { assert k in t; }
      AdvanceDeclared(ports, p, k.0, k.1);
    }
  }

  lemma AdvanceAllInPlace(t: Tables, ports: seq<Port>, p: Port)
    requires AllInPlace(t, ports) && forall i :: 0 <= i < |ports| ==> ports[i].name != p.name
    ensures var obj := if IsInput(p.class_) then Indexed(1 + Inputs(ports)) else Plain;
            AllInPlace(t[(p.class_, p.name) := obj], ports + [p])
  {
    hide InPlace, Inputs;
    var obj := if IsInput(p.class_) then Indexed(1 + Inputs(ports)) else Plain;
    var u, more := t[(p.class_, p.name) := obj], ports + [p];
    forall i | 0 <= i < |more| ensures InPlace(u, more, i) {
      AdvancePlaces(t, ports, p, i);
    }
  }

  /** One more port: one more entry. */
  lemma Advance(t: Tables, ports: seq<Port>, p: Port)
    requires Tabulates(t, ports) && p.class_ != OtherClass && forall i :: 0 <= i < |ports| ==> ports[i].name != p.name
    ensures var obj := if IsInput(p.class_) then Indexed(1 + Inputs(ports)) else Plain;
            Tabulates(t[(p.class_, p.name) := obj], ports + [p])
    ensures Inputs(ports + [p]) == Inputs(ports) + if IsInput(p.class_) then 1 else 0
  {
    hide AllInPlace, AllDeclared, Inputs;
    EntryMore(ports, p, |ports|);
    AdvanceAllInPlace(t, ports, p);
    AdvanceAllDeclared(t, ports, p, if IsInput(p.class_) then Indexed(1 + Inputs(ports)) else Plain);
  }

  // ---------------------------------------------------------------- indices run from 1 in declaration order

  lemma {:induction false} InputsGrow(ports: seq<Port>, i: nat, j: nat)
    requires i <= j <= |ports|
    ensures Inputs(ports[..i]) <= Inputs(ports[..j])
    ensures (exists m :: i <= m < j && IsInput(ports[m].class_)) ==> Inputs(ports[..i]) < Inputs(ports[..j])
    decreases j
  {
    if i < j {
      InputsGrow(ports, i, j - 1);
      assert ports[..j][..j - 1] == ports[..j - 1];
    }
  }

  /** Of two ports that receive messages, the one declared first has the smaller index. */
  lemma IndicesFollowDeclaration(ports: seq<Port>, i: nat, j: nat)
    requires i < |ports| && j < |ports| && IsInput(ports[i].class_) && IsInput(ports[j].class_)
    ensures Entry(ports, i).index < Entry(ports, j).index <==> i < j
    ensures 1 <= Entry(ports, i).index <= Inputs(ports)
  {
    if i < j { InputsGrow(ports, i, j); }
    if j < i { InputsGrow(ports, j, i); }
    InputsGrow(ports, i, |ports|);
    assert ports[..|ports|] == ports;
  }

  /** No index is left out. */
  lemma {:induction false} IndicesHaveNoGaps(ports: seq<Port>, n: nat)
    requires 1 <= n <= Inputs(ports)
    ensures exists i :: 0 <= i < |ports| && Entry(ports, i) == Indexed(n)
  {
    var last := |ports| - 1;
    var front := ports[..last];
    if n <= Inputs(front) {
      IndicesHaveNoGaps(front, n);
      var i :| 0 <= i < |front| && Entry(front, i) == Indexed(n);
      assert ports[..i] == front[..i];
      assert Entry(ports, i) == Indexed(n);
    } else {
      assert Entry(ports, last) == Indexed(n);
    }
  }
}
