/** The connector object: its constructor, `connect` with its cached client
    and post-load setup, the one-time synthesis of the data access object,
    `define` and `getTypes`. */
module Connector {
  import opened JsValues
  import opened Wsdl
  import opened Config
  import opened Naming
  import Marshal

  datatype Model = Model(modelName: string)

  /** The model description the host framework passes to `define`. */
  datatype ModelDef = ModelDef(model: Model, properties: map<string, Json>)

  /** What the soap library's `createClient` reports for the WSDL location. */
  datatype LoadResult = Loaded(client: Client) | LoadFailed(error: string)

  /** The `(err, client)` pair `connect` hands to its callback. */
  datatype ConnectOutcome = Connected(client: Client) | Failed(error: string)

  /** Walking one more operation of a port is one more naming step. */
  lemma WalkOperationStep(env: Env, table0: map<string, DaoEntry>, service: string, port: string, ops: seq<string>, m: nat)
    requires m < |ops|
    ensures Walk(env, table0, OperationTriples(service, port, ops[..m + 1])) ==
            Step(env, Walk(env, table0, OperationTriples(service, port, ops[..m])), Triple(service, port, ops[m]))
  {
    OperationTriplesSnoc(service, port, ops, m);
    WalkSnoc(env, table0, OperationTriples(service, port, ops[..m]), Triple(service, port, ops[m]));
  }

  /** The innermost `for…in` loop of `setupDataAccessObject`: one entry per
      operation of `port`, named by `_methodName` against the table so far. */
  method AddOperations(env: Env, table0: map<string, DaoEntry>, service: string, port: Port)
    returns (table: map<string, DaoEntry>)
    ensures table == Walk(env, table0, OperationTriples(service, port.name, port.operations))
  {
    var ops := port.operations;
    table := table0;
    var m := 0;
    while m < |ops|
      invariant 0 <= m <= |ops|
      invariant table == Walk(env, table0, OperationTriples(service, port.name, ops[..m]))
    {
      var triple := Triple(service, port.name, ops[m]);
      var name := MethodName(env.mappings, triple, table.Keys);
      var entry := NewEntry(env, triple);
      WalkOperationStep(env, table0, service, port.name, ops, m);
      table := table[name := entry];
      m := m + 1;
    }
    assert ops[..m] == ops;
  }

  /** The middle `for…in` loop: every port of `service`, in order. */
  method AddPorts(env: Env, table0: map<string, DaoEntry>, service: Service)
    returns (table: map<string, DaoEntry>)
    ensures table == Walk(env, table0, PortTriples(service.name, service.ports))
  {
    var ports := service.ports;
    table := table0;
    var p := 0;
    while p < |ports|
      invariant 0 <= p <= |ports|
      invariant table == Walk(env, table0, PortTriples(service.name, ports[..p]))
    {
      table := AddOperations(env, table, service.name, ports[p]);
      WalkAppend(env, table0, PortTriples(service.name, ports[..p]),
                 OperationTriples(service.name, ports[p].name, ports[p].operations));
      PortTriplesSnoc(service.name, ports, p);
      p := p + 1;
    }
    assert ports[..p] == ports;
  }

  /** The outer `for…in` loop: every service of the client, in order. */
  method AddServices(env: Env, table0: map<string, DaoEntry>, services: seq<Service>)
    returns (table: map<string, DaoEntry>)
    ensures table == Walk(env, table0, ServiceTriples(services))
  {
    table := table0;
    var s := 0;
    while s < |services|
      invariant 0 <= s <= |services|
      invariant table == Walk(env, table0, ServiceTriples(services[..s]))
    {
      table := AddPorts(env, table, services[s]);
      WalkAppend(env, table0, ServiceTriples(services[..s]),
                 PortTriples(services[s].name, services[s].ports));
      ServiceTriplesSnoc(services, s);
      s := s + 1;
    }
    assert services[..s] == services;
  }

  /** The `soapHeaders` loop of `connect`: string headers are added verbatim,
      element headers with their name, prefix and namespace, anything else is
      skipped. */
  method AddSoapHeaders(c: Client, headers: seq<Header>) returns (r: Client)
    ensures r == c.(soapHeaders := c.soapHeaders + HeaderFragments(headers))
  {
    r := c;
    var i := 0;
    while i < |headers|
      invariant 0 <= i <= |headers|
      invariant r == c.(soapHeaders := c.soapHeaders + HeaderFragments(headers[..i]))
    {
      match headers[i] {
        case StringHeader(text) =>
          r := r.(soapHeaders := r.soapHeaders + [Literal(text)]);
        case ElementHeader(element, name, prefix, namespace) =>
          r := r.(soapHeaders := r.soapHeaders + [ElementXml(element, name, prefix, namespace)]);
        case OtherHeader =>
      }
      assert headers[..i + 1][..i] == headers[..i];
      i := i + 1;
    }
    assert headers[..i] == headers;
  }

  /** What `connect` does to a freshly loaded client before caching it: the
      security strategy, the `soapAction` override and the extra headers. */
  method ConfigureClient(s: Settings, c: Client) returns (r: Client)
    ensures r == Configured(s, c)
  {
    r := c;
    var security := SelectSecurity(s);
    if security.Some? {
      r := r.(security := security);
    }
    var action := SoapActionOverride(s);
    if action.Some? {
      r := r.(soapAction := Val(action.value));
    }
    if s.soapHeaders.Some? {
      r := AddSoapHeaders(r, s.soapHeaders.value);
    } else {
      assert r.soapHeaders + [] == r.soapHeaders;
    }
  }

  class SoapConnector {
    var settings: Settings
    var endpoint: Js<string>
    var wsdl: string
    var client: Option<Client>
    var wsdlParsed: bool
    /** The `DataAccessObject`'s own properties: name to method. */
    var dao: map<string, DaoEntry>
    var models: map<string, ModelDef>
    /** The (WSDL location, endpoint) pairs the connector has asked the soap
        library to load from, in order. */
    ghost var loadedFrom: seq<(string, Js<string>)>

    /** The method surface exists exactly when a client is cached, and then
        holds both conversion utilities. */
    ghost predicate Valid()
      reads this
    {
      && (wsdlParsed <==> client.Some?)
      && (wsdlParsed ==> "xmlToJSON" in dao && "jsonToXML" in dao)
    }

    constructor (s: Settings)
      ensures Valid()
      ensures settings == s.(ignoredNamespaces := WithDefaultNamespaces(s.ignoredNamespaces))
      ensures endpoint == StrOr(s.endpoint, s.url) && wsdl == WsdlLocation(s)
      ensures client == None && !wsdlParsed && dao == map[] && models == map[] && loadedFrom == []
    {
      var endpointValue := StrOr(s.endpoint, s.url);
      var location := if StrTruthy(s.wsdl) then s.wsdl.v else StrText(endpointValue) + "?wsdl";
      settings := s;
      if s.ignoredNamespaces == Undef || s.ignoredNamespaces == Null {
        settings := s.(ignoredNamespaces := Val(IgnoredNamespaces([], true)));
      }
      endpoint := endpointValue;
      wsdl := location;
      models := map[];
      dao := map[];
      client := None;
      wsdlParsed := false;
      loadedFrom := [];
    }

    /** `connect`: a cached client is reported again without loading; otherwise
        the WSDL is loaded once, and on success the client is configured,
        cached, and the method surface is synthesised. */
    method Connect(loaded: LoadResult) returns (outcome: ConnectOutcome)
      requires Valid()
      modifies this
      ensures Valid()
      ensures settings == old(settings) && endpoint == old(endpoint) && wsdl == old(wsdl) && models == old(models)
      ensures old(client).Some? ==>
                outcome == Connected(old(client).value) && client == old(client) &&
                dao == old(dao) && loadedFrom == old(loadedFrom)
      ensures old(client).None? ==> loadedFrom == old(loadedFrom) + [(wsdl, endpoint)]
      ensures old(client).None? && loaded.LoadFailed? ==>
                outcome == Failed(loaded.error) && client == None && dao == old(dao)
      ensures old(client).None? && loaded.Loaded? ==>
                && client == Some(Configured(settings, loaded.client))
                && outcome == Connected(client.value)
                && dao == Synthesize(EnvOf(settings, loaded.client.wsdl), loaded.client.wsdl.services, old(dao))
    {
      if client.Some? {
        outcome := Connected(client.value);
        return;
      }
      loadedFrom := loadedFrom + [(wsdl, endpoint)];
      match loaded
      case LoadFailed(error) =>
        outcome := Failed(error);
      case Loaded(c) =>
        var configured := ConfigureClient(settings, c);
        client := Some(configured);
        var _ := SetupDataAccessObject();
        outcome := Connected(configured);
    }

    /** `setupDataAccessObject`: guarded by `wsdlParsed`, so it runs once;
        the first run installs the two utilities and then writes one entry per
        (service, port, operation) triple, in the order of the nested walk. */
    method SetupDataAccessObject() returns (table: map<string, DaoEntry>)
      requires client.Some?
      requires wsdlParsed ==> "xmlToJSON" in dao && "jsonToXML" in dao
      modifies this`wsdlParsed, this`dao
      ensures wsdlParsed && table == dao
      ensures "xmlToJSON" in dao && "jsonToXML" in dao
      ensures old(wsdlParsed) ==> dao == old(dao)
      ensures !old(wsdlParsed) ==>
                dao == Synthesize(EnvOf(settings, client.value.wsdl), client.value.wsdl.services, old(dao))
    {
      if wsdlParsed {
        return dao;
      }
      wsdlParsed := true;
      dao := dao["xmlToJSON" := XmlToJsonUtility];
      dao := dao["jsonToXML" := JsonToXmlUtility];
      var defs := client.value.wsdl;
      table := AddServices(EnvOf(settings, defs), dao, defs.services);
      WalkKeysGrow(EnvOf(settings, defs), dao, ServiceTriples(defs.services));
      dao := table;
      return dao;
    }

    /** `define`: remember the model description under its model's name. */
    method Define(def: ModelDef)
      requires Valid()
      modifies this`models
      ensures Valid()
      ensures models == old(models)[def.model.modelName := def]
    {
      models := models[def.model.modelName := def];
    }

    /** `getTypes`: the connector reports the single capability tag `soap`. */
    function GetTypes(): (types: seq<string>)
      ensures |types| == 1 && types[0] == "soap"
    {
      ["soap"]
    }
  }

  /** A failed load leaves the connector unconnected, so the next `connect`
      loads again and this time caches the configured client. */
  method ReconnectAfterFailure(s: Settings, error: string, c: Client)
    returns (first: ConnectOutcome, second: ConnectOutcome, ghost loadedFrom: seq<(string, Js<string>)>)
    ensures first == Failed(error)
    ensures second == Connected(Configured(s, c))
    ensures loadedFrom == [(WsdlLocation(s), StrOr(s.endpoint, s.url)), (WsdlLocation(s), StrOr(s.endpoint, s.url))]
  {
    var connector := new SoapConnector(s);
    first := connector.Connect(LoadFailed(error));
    second := connector.Connect(Loaded(c));
    loadedFrom := connector.loadedFrom;
  }

  /** Once a client is cached, a second `connect` reports the same client,
      whatever a load would have produced, and the method surface built by the
      first one is left as it was. */
  method ConnectIsCached(s: Settings, c: Client, later: LoadResult)
    returns (first: ConnectOutcome, second: ConnectOutcome, surface1: map<string, DaoEntry>, surface2: map<string, DaoEntry>,
             ghost loadedFrom: seq<(string, Js<string>)>)
    ensures first == Connected(Configured(s, c)) && second == first
    ensures loadedFrom == [(WsdlLocation(s), StrOr(s.endpoint, s.url))]
    ensures surface1 == Synthesize(EnvOf(s, c.wsdl), c.wsdl.services, map[])
    ensures surface2 == surface1
  {
    var connector := new SoapConnector(s);
    first := connector.Connect(Loaded(c));
    surface1 := connector.dao;
    second := connector.Connect(later);
    surface2 := connector.dao;
    loadedFrom := connector.loadedFrom;
  }

  /** A synthesised method's own `jsonToXML` and `xmlToJSON` are bound to the
      record `findMethod` gives for its operation name, so they agree with the
      connector-wide utilities called with that name; when no port type holds
      the name, both fail. */
  lemma PerMethodUtilitiesAgree(env: Env, defs: Definitions, t: Triple, json: Option<Json>, xml: Js<string>,
                                parse: string -> map<string, Json>)
    requires env.portTypes == defs.portTypes
    ensures FindMethod(defs.portTypes, t.operation).Some? ==>
              Marshal.JsonToXml(defs, Marshal.Handle(NewEntry(env, t).marshal), json) ==
              Marshal.JsonToXml(defs, Marshal.Named(t.operation), json)
    ensures FindMethod(defs.portTypes, t.operation).Some? ==>
              Marshal.XmlToJson(defs, Marshal.Handle(NewEntry(env, t).marshal), xml, parse) ==
              Marshal.XmlToJson(defs, Marshal.Named(t.operation), xml, parse)
    ensures FindMethod(defs.portTypes, t.operation).None? && Truthy(json) ==>
              Marshal.JsonToXml(defs, Marshal.Handle(NewEntry(env, t).marshal), json).Err? &&
              Marshal.JsonToXml(defs, Marshal.Named(t.operation), json).Err?
    ensures FindMethod(defs.portTypes, t.operation).None? && StrTruthy(xml) ==>
              Marshal.XmlToJson(defs, Marshal.Handle(NewEntry(env, t).marshal), xml, parse).Err? &&
              Marshal.XmlToJson(defs, Marshal.Named(t.operation), xml, parse).Err?
  {
  }
}
