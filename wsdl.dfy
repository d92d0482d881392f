/** The parsed WSDL as the connector reads it from the loaded client: the
    service/port/operation tree it walks, the port types it searches for
    operation records, and the namespace declarations of the definitions. */
module Wsdl {
  import opened JsValues

  /** An operation's `input` or `output` descriptor. `hasParts` says whether
      the message carries `parts` (RPC style) rather than an element reference. */
  datatype Message = Message(
    name: string,
    hasParts: bool,
    targetNSAlias: Js<string>,
    targetNamespace: Js<string>,
    typ: Js<string>)

  /** A port type's operation record; a one-way operation has no output. */
  datatype OperationRecord = OperationRecord(
    name: string,
    input: Option<Message>,
    output: Option<Message>)

  datatype PortType = PortType(name: string, methods: map<string, OperationRecord>)

  datatype Port = Port(name: string, operations: seq<string>)

  datatype Service = Service(name: string, ports: seq<Port>)

  /** `client.wsdl.definitions` together with the client's service tree.
      `xmlns` lists the alias/URI declarations in document order. */
  datatype Definitions = Definitions(
    services: seq<Service>,
    portTypes: seq<PortType>,
    targetNamespace: string,
    xmlns: seq<(string, string)>)

  datatype Triple = Triple(service: string, port: string, operation: string)

  /** Position of the first declaration bound to `uri`, or `|xmlns|` if none is. */
  function FirstAliasIndex(xmlns: seq<(string, string)>, uri: string): (i: nat)
    ensures i <= |xmlns|
    ensures i < |xmlns| ==> xmlns[i].1 == uri
    ensures forall j :: 0 <= j < i ==> xmlns[j].1 != uri
  {
    if xmlns == [] then 0
    else if xmlns[0].1 == uri then 0
    else 1 + FirstAliasIndex(xmlns[1..], uri)
  }

  /** `findKey`: the first alias whose value is `uri`, else `null`. */
  function FindKey(xmlns: seq<(string, string)>, uri: string): (r: Js<string>)
    ensures r != Undef
    ensures r == Null <==> forall j :: 0 <= j < |xmlns| ==> xmlns[j].1 != uri
    ensures r.Val? ==> exists i :: 0 <= i < |xmlns| && xmlns[i] == (r.v, uri) &&
                                   forall j :: 0 <= j < i ==> xmlns[j].1 != uri
  {
    var i := FirstAliasIndex(xmlns, uri);
    if i < |xmlns| then Val(xmlns[i].0) else Null
  }

  /** Position of the first port type that has an operation called `name`,
      or `|portTypes|` if none has. */
  function OwnerIndex(portTypes: seq<PortType>, name: string): (p: nat)
    ensures p <= |portTypes|
    ensures p < |portTypes| ==> name in portTypes[p].methods
    ensures forall q :: 0 <= q < p ==> name !in portTypes[q].methods
  {
    if portTypes == [] then 0
    else if name in portTypes[0].methods then 0
    else 1 + OwnerIndex(portTypes[1..], name)
  }

  /** `findMethod`: the record of `name` in the first port type holding it. */
  function FindMethod(portTypes: seq<PortType>, name: string): (r: Option<OperationRecord>)
    ensures r.None? <==> forall q :: 0 <= q < |portTypes| ==> name !in portTypes[q].methods
    ensures r.Some? ==> exists p :: 0 <= p < |portTypes| && name in portTypes[p].methods &&
                                    r.value == portTypes[p].methods[name] &&
                                    forall q :: 0 <= q < p ==> name !in portTypes[q].methods
  {
    var p := OwnerIndex(portTypes, name);
    if p < |portTypes| then Some(portTypes[p].methods[name]) else None
  }

  /** The triples of one port, in enumeration order. */
  function OperationTriples(service: string, port: string, ops: seq<string>): (ts: seq<Triple>)
    ensures |ts| == |ops|
    ensures forall k :: 0 <= k < |ops| ==> ts[k] == Triple(service, port, ops[k])
  {
    if ops == [] then []
    else OperationTriples(service, port, ops[..|ops| - 1]) + [Triple(service, port, ops[|ops| - 1])]
  }

  /** The triples of one service, port after port. */
  function PortTriples(service: string, ports: seq<Port>): seq<Triple>
  {
    if ports == [] then []
    else
      var last := ports[|ports| - 1];
      PortTriples(service, ports[..|ports| - 1]) + OperationTriples(service, last.name, last.operations)
  }

  /** Every (service, port, operation) triple in the order of the nested walk. */
  function ServiceTriples(services: seq<Service>): seq<Triple>
  {
    if services == [] then []
    else
      var last := services[|services| - 1];
      ServiceTriples(services[..|services| - 1]) + PortTriples(last.name, last.ports)
  }

  /** One more operation of a port extends its triples by one. */
  lemma OperationTriplesSnoc(service: string, port: string, ops: seq<string>, m: nat)
    requires m < |ops|
    ensures OperationTriples(service, port, ops[..m + 1]) ==
            OperationTriples(service, port, ops[..m]) + [Triple(service, port, ops[m])]
  {
    assert ops[..m + 1][..m] == ops[..m];
  }

  /** One more port of a service extends its triples by that port's. */
  lemma PortTriplesSnoc(service: string, ports: seq<Port>, p: nat)
    requires p < |ports|
    ensures PortTriples(service, ports[..p + 1]) ==
            PortTriples(service, ports[..p]) + OperationTriples(service, ports[p].name, ports[p].operations)
  {
    assert ports[..p + 1][..p] == ports[..p];
  }

  /** One more service extends the walk by that service's triples. */
  lemma ServiceTriplesSnoc(services: seq<Service>, s: nat)
    requires s < |services|
    ensures ServiceTriples(services[..s + 1]) ==
            ServiceTriples(services[..s]) + PortTriples(services[s].name, services[s].ports)
  {
    assert services[..s + 1][..s] == services[..s];
  }

  /** A triple of the walk names a service, one of its ports and one of that
      port's operations. */
  lemma {:induction false} ServiceTriplesOrigin(services: seq<Service>, t: Triple)
    requires t in ServiceTriples(services)
    ensures exists i, j :: 0 <= i < |services| && 0 <= j < |services[i].ports| &&
                           t.service == services[i].name &&
                           t.port == services[i].ports[j].name &&
                           t.operation in services[i].ports[j].operations
  {
    var n := |services|;
    var last := services[n - 1];
    if t in ServiceTriples(services[..n - 1]) {
      ServiceTriplesOrigin(services[..n - 1], t);
      var i, j :| 0 <= i < n - 1 && 0 <= j < |services[..n - 1][i].ports| &&
                  t.service == services[..n - 1][i].name &&
                  t.port == services[..n - 1][i].ports[j].name &&
                  t.operation in services[..n - 1][i].ports[j].operations;
      assert services[..n - 1][i] == services[i];
    } else {
      PortTriplesOrigin(last.name, last.ports, t);
    }
  }

  lemma {:induction false} PortTriplesOrigin(service: string, ports: seq<Port>, t: Triple)
    requires t in PortTriples(service, ports)
    ensures exists j :: 0 <= j < |ports| && t.service == service &&
                        t.port == ports[j].name && t.operation in ports[j].operations
  {
    var n := |ports|;
    var last := ports[n - 1];
    if t in PortTriples(service, ports[..n - 1]) {
      PortTriplesOrigin(service, ports[..n - 1], t);
      var j :| 0 <= j < n - 1 && t.service == service &&
               t.port == ports[..n - 1][j].name && t.operation in ports[..n - 1][j].operations;
      assert ports[..n - 1][j] == ports[j];
    } else {
      var ts := OperationTriples(service, last.name, last.operations);
      var k :| 0 <= k < |ts| && ts[k] == t;
      assert last.operations[k] == t.operation;
    }
  }
}
