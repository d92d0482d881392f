/** The method surfaces the connector builds for the WSDL shape its tests
    load: one service exposing the same operations on a SOAP 1.1 port and on
    a SOAP 1.2 port, with and without an `operations` mapping for the first. */
module Scenarios {
  import opened JsValues
  import opened Wsdl
  import opened Config
  import opened Naming

  /** One more triple of a walked list is one more step. */
  lemma WalkPrefixStep(env: Env, dao: map<string, DaoEntry>, ts: seq<Triple>, k: nat)
    requires k < |ts|
    ensures Walk(env, dao, ts[..k + 1]) == Step(env, Walk(env, dao, ts[..k]), ts[k])
  {
    assert ts[..k + 1] == ts[..k] + [ts[k]];
    WalkSnoc(env, dao, ts[..k], ts[k]);
  }

  /** The triples of a one-service, two-port WSDL whose ports expose `ops`. */
  lemma TwoPortTriples(service: string, port1: string, port2: string, ops: seq<string>)
    ensures ServiceTriples([Service(service, [Port(port1, ops), Port(port2, ops)])]) ==
            OperationTriples(service, port1, ops) + OperationTriples(service, port2, ops)
  {
    var ports := [Port(port1, ops), Port(port2, ops)];
    assert ports[..1] == [ports[0]] && [ports[0]][..0] == [];
    assert PortTriples(service, [ports[0]]) == OperationTriples(service, port1, ops);
    assert PortTriples(service, ports) ==
           OperationTriples(service, port1, ops) + OperationTriples(service, port2, ops);
    var services := [Service(service, ports)];
    assert services[..0] == [];
    assert ServiceTriples(services) == ServiceTriples([]) + PortTriples(service, ports);
  }

  /** The table before the walk: just the two utilities. */
  function Utilities(): set<string> {
    {"xmlToJSON", "jsonToXML"}
  }

  /** One service whose two ports expose the same operation `op`, as the
      stock quote WSDL does with `GetQuote` on its SOAP 1.1 and 1.2 ports. */
  function TwoPorts(service: string, port1: string, port2: string, op: string): seq<Service> {
    [Service(service, [Port(port1, [op]), Port(port2, [op])])]
  }

  /** Without mappings, the first port claims the bare name and the second
      port's copy of the same operation is qualified. */
  lemma SecondPortQualified(env: Env, service: string, port1: string, port2: string, op: string)
    requires env.mappings == [] && op !in Utilities()
    ensures Synthesize(env, TwoPorts(service, port1, port2, op), map[]).Keys ==
            Utilities() + {op, QualifiedName(Triple(service, port2, op))}
  {
    TwoPortTriples(service, port1, port2, [op]);
    var ts := ServiceTriples(TwoPorts(service, port1, port2, op));
    assert ts == [Triple(service, port1, op), Triple(service, port2, op)];
    var d0 := InstallUtilities(map[]);
    WalkPrefixStep(env, d0, ts, 0);
    WalkPrefixStep(env, d0, ts, 1);
    assert ts[..0] == [] && ts[..2] == ts;
    assert MethodName([], ts[0], d0.Keys) == op;
  }

  /** The one mapping names its own port's operation and no other port's. */
  lemma OneMappingNames(ms: seq<Mapping>, service: string, port1: string, port2: string, op: string, key: string,
                        taken: set<string>)
    requires ms == [Mapping(key, Val(service), Val(port1), Val(op))] && port1 != port2
    ensures MethodName(ms, Triple(service, port1, op), taken) == key
    ensures op !in taken ==> MethodName(ms, Triple(service, port2, op), taken) == op
  {
    assert Matches(ms[0], Triple(service, port1, op));
    assert !Matches(ms[0], Triple(service, port2, op));
  }

  /** With the first port's operation mapped to `key`, the second port's copy
      keeps the bare name and no qualified name appears. */
  lemma MappedPortShadowsNothing(env: Env, service: string, port1: string, port2: string, op: string, key: string)
    requires env.mappings == [Mapping(key, Val(service), Val(port1), Val(op))]
    requires port1 != port2 && key != op && op !in Utilities() && key !in Utilities()
    ensures Synthesize(env, TwoPorts(service, port1, port2, op), map[]).Keys == Utilities() + {key, op}
  {
    TwoPortTriples(service, port1, port2, [op]);
    var ts := ServiceTriples(TwoPorts(service, port1, port2, op));
    assert ts == [Triple(service, port1, op), Triple(service, port2, op)];
    var d0 := InstallUtilities(map[]);
    WalkPrefixStep(env, d0, ts, 0);
    WalkPrefixStep(env, d0, ts, 1);
    assert ts[..0] == [] && ts[..2] == ts;
    var d1 := Walk(env, d0, ts[..1]);
    OneMappingNames(env.mappings, service, port1, port2, op, key, d0.Keys);
    assert d1.Keys == Utilities() + {key};
    OneMappingNames(env.mappings, service, port1, port2, op, key, d1.Keys);
  }
}
