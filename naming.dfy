/** Method synthesis: the name each (service, port, operation) triple is
    exposed under, the entry written for it, and the walk over all triples
    that fills the data access object's name table. */
module Naming {
  import opened JsValues
  import opened Wsdl
  import opened Config

  /** One argument description of the remoting metadata. */
  datatype ArgSpec = ArgSpec(arg: string, typ: string, required: Js<bool>, httpSource: Js<string>, root: Js<bool>)

  /** What `setRemoting` attaches to a method. */
  datatype Remoting = Remoting(shared: bool, accepts: seq<ArgSpec>, returned: ArgSpec)

  /** A value of the name table: one of the two conversion utilities, or a
      client method bound to a triple, with the operation record its own
      `jsonToXML`/`xmlToJSON` are bound to and its remoting metadata, if any. */
  datatype DaoEntry =
    | XmlToJsonUtility
    | JsonToXmlUtility
    | WsMethod(operation: Triple, marshal: Option<OperationRecord>, remoting: Option<Remoting>)

  /** What synthesis reads besides the triples: the `operations` mapping, the
      `remotingEnabled` flag and the port types searched by `findMethod`. */
  datatype Env = Env(mappings: seq<Mapping>, remotingEnabled: bool, portTypes: seq<PortType>)

  /** The synthesis inputs a connector with settings `s` and loaded definitions `defs` uses. */
  function EnvOf(s: Settings, defs: Definitions): Env
  {
    Env(s.operations, s.remotingEnabled, defs.portTypes)
  }

  const InputArg: ArgSpec := ArgSpec("input", "object", Val(true), Val("body"), Undef)
  const OutputArg: ArgSpec := ArgSpec("output", "object", Undef, Undef, Val(true))

  /** `setRemoting`: shared, one object in from the request body, one object out as the root. */
  const SharedRemoting: Remoting := Remoting(true, [InputArg], OutputArg)

  /** A mapping entry binds a triple when service and port match and either its
      operation equals the triple's, or it has no operation and its key does. */
  predicate Matches(m: Mapping, t: Triple) {
    && m.service == Val(t.service)
    && m.port == Val(t.port)
    && (m.operation == Val(t.operation) || (m.operation == Undef && m.key == t.operation))
  }

  /** Position of the first mapping entry binding `t`, or `|ms|` if none does. */
  function FirstMatchIndex(ms: seq<Mapping>, t: Triple): (i: nat)
    ensures i <= |ms|
    ensures i < |ms| ==> Matches(ms[i], t)
    ensures forall j :: 0 <= j < i ==> !Matches(ms[j], t)
  {
    if ms == [] then 0
    else if Matches(ms[0], t) then 0
    else 1 + FirstMatchIndex(ms[1..], t)
  }

  predicate Mapped(env: Env, t: Triple) {
    FirstMatchIndex(env.mappings, t) < |env.mappings|
  }

  function QualifiedName(t: Triple): string {
    t.service + "_" + t.port + "_" + t.operation
  }

  /** `_methodName`: the first mapping key binding the triple; failing that,
      `service_port_operation` when the bare operation name is already taken,
      and the bare operation name otherwise. */
  function MethodName(ms: seq<Mapping>, t: Triple, taken: set<string>): (r: string)
    ensures forall i :: 0 <= i < |ms| && Matches(ms[i], t) && (forall j :: 0 <= j < i ==> !Matches(ms[j], t))
                        ==> r == ms[i].key
    ensures (forall i :: 0 <= i < |ms| ==> !Matches(ms[i], t)) && t.operation in taken ==> r == QualifiedName(t)
    ensures (forall i :: 0 <= i < |ms| ==> !Matches(ms[i], t)) && t.operation !in taken ==> r == t.operation
    ensures (forall i :: 0 <= i < |ms| ==> !Matches(ms[i], t)) ==> r != t.operation || t.operation !in taken
  {
    var i := FirstMatchIndex(ms, t);
    if i < |ms| then ms[i].key
    else if t.operation in taken then QualifiedName(t)
    else t.operation
  }

  /** The entry written for a triple. Its conversion utilities are bound to the
      first port type's record of the bare operation name. */
  function NewEntry(env: Env, t: Triple): (e: DaoEntry)
    ensures e.WsMethod? && e.operation == t
    ensures e.remoting.Some? <==> env.remotingEnabled
    ensures env.remotingEnabled ==> e.remoting == Some(SharedRemoting)
    ensures env.remotingEnabled ==> e.remoting.value.shared && e.remoting.value.accepts == [InputArg]
    ensures e.marshal == FindMethod(env.portTypes, t.operation)
  {
    WsMethod(t, FindMethod(env.portTypes, t.operation), if env.remotingEnabled then Some(SharedRemoting) else None)
  }

  /** One iteration of the walk: write the triple's entry under its resolved name. */
  function Step(env: Env, dao: map<string, DaoEntry>, t: Triple): (r: map<string, DaoEntry>)
    ensures r.Keys == dao.Keys + {MethodName(env.mappings, t, dao.Keys)}
    ensures r[MethodName(env.mappings, t, dao.Keys)].WsMethod? && r[MethodName(env.mappings, t, dao.Keys)].operation == t
    ensures forall k :: k in dao && k != MethodName(env.mappings, t, dao.Keys) ==> r[k] == dao[k]
  {
    dao[MethodName(env.mappings, t, dao.Keys) := NewEntry(env, t)]
  }

  /** The table after walking `ts` in order, starting from `dao`. */
  function Walk(env: Env, dao: map<string, DaoEntry>, ts: seq<Triple>): (r: map<string, DaoEntry>)
    ensures dao.Keys <= r.Keys
    ensures ts == [] ==> r == dao
  {
    if ts == [] then dao else Step(env, Walk(env, dao, ts[..|ts| - 1]), ts[|ts| - 1])
  }

  /** The two utilities installed before the walk. */
  function InstallUtilities(dao: map<string, DaoEntry>): (r: map<string, DaoEntry>)
    ensures r.Keys == dao.Keys + {"xmlToJSON", "jsonToXML"}
    ensures r["xmlToJSON"] == XmlToJsonUtility && r["jsonToXML"] == JsonToXmlUtility
    ensures forall k :: k in dao && k != "xmlToJSON" && k != "jsonToXML" ==> r[k] == dao[k]
  {
    dao["xmlToJSON" := XmlToJsonUtility]["jsonToXML" := JsonToXmlUtility]
  }

  /** The whole synthesis: utilities first, then every triple of the services. */
  function Synthesize(env: Env, services: seq<Service>, dao: map<string, DaoEntry>): (r: map<string, DaoEntry>)
    ensures dao.Keys + {"xmlToJSON", "jsonToXML"} <= r.Keys
    ensures services == [] ==> r == InstallUtilities(dao)
  {
    Walk(env, InstallUtilities(dao), ServiceTriples(services))
  }

  /** Walking two runs of triples is walking the first, then the second from there. */
  lemma {:induction false} WalkAppend(env: Env, dao: map<string, DaoEntry>, ts1: seq<Triple>, ts2: seq<Triple>)
    ensures Walk(env, dao, ts1 + ts2) == Walk(env, Walk(env, dao, ts1), ts2)
    decreases |ts2|
  {
    if ts2 == [] {
      assert ts1 + ts2 == ts1;
    } else {
      var n := |ts2|;
      assert (ts1 + ts2)[..|ts1 + ts2| - 1] == ts1 + ts2[..n - 1];
      assert (ts1 + ts2)[|ts1 + ts2| - 1] == ts2[n - 1];
      WalkAppend(env, dao, ts1, ts2[..n - 1]);
    }
  }

  /** Walking one more triple is one more step. */
  lemma WalkSnoc(env: Env, dao: map<string, DaoEntry>, ts: seq<Triple>, t: Triple)
    ensures Walk(env, dao, ts + [t]) == Step(env, Walk(env, dao, ts), t)
  {
    assert (ts + [t])[..|ts|] == ts;
  }

  /** The table only grows: no name is ever removed, and each triple adds at most one. */
  lemma {:induction false} WalkKeysGrow(env: Env, dao: map<string, DaoEntry>, ts: seq<Triple>)
    ensures dao.Keys <= Walk(env, dao, ts).Keys
    ensures |Walk(env, dao, ts).Keys| <= |dao.Keys| + |ts|
  {
    if ts != [] {
      var prev := Walk(env, dao, ts[..|ts| - 1]);
      WalkKeysGrow(env, dao, ts[..|ts| - 1]);
      var name := MethodName(env.mappings, ts[|ts| - 1], prev.Keys);
      assert Walk(env, dao, ts).Keys == prev.Keys + {name};
    }
  }

  /** Every entry of the final table is either an untouched entry of the start
      table or the entry of one of the walked triples. */
  lemma {:induction false} WalkEntriesOrigin(env: Env, dao: map<string, DaoEntry>, ts: seq<Triple>)
    ensures forall k :: k in Walk(env, dao, ts) ==>
              (k in dao && Walk(env, dao, ts)[k] == dao[k]) ||
              (Walk(env, dao, ts)[k].WsMethod? && Walk(env, dao, ts)[k].operation in ts &&
               Walk(env, dao, ts)[k] == NewEntry(env, Walk(env, dao, ts)[k].operation))
  {
    if ts != [] {
      var init := ts[..|ts| - 1];
      WalkEntriesOrigin(env, dao, init);
      forall t | t in init ensures t in ts {
        var i :| 0 <= i < |init| && init[i] == t;
        assert ts[i] == t;
      }
    }
  }

  /** `setRemoting` applies to every synthesised method or to none: an entry
      the walk wrote carries the shared remoting description exactly when
      remoting is enabled; the utilities are left alone. */
  lemma RemotingMarksEveryMethod(env: Env, services: seq<Service>, dao: map<string, DaoEntry>)
    requires forall k :: k in dao ==> !dao[k].WsMethod?
    ensures forall k :: k in Synthesize(env, services, dao) && Synthesize(env, services, dao)[k].WsMethod? ==>
              (Synthesize(env, services, dao)[k].remoting == Some(SharedRemoting) <==> env.remotingEnabled) &&
              (!env.remotingEnabled ==> Synthesize(env, services, dao)[k].remoting == None)
  {
    WalkEntriesOrigin(env, InstallUtilities(dao), ServiceTriples(services));
  }

  /** Without a mapping for any triple, every operation name is a key of the
      final table: the first triple with that operation claims the bare name. */
  lemma {:induction false} UnmappedKeepBareNames(env: Env, dao: map<string, DaoEntry>, ts: seq<Triple>)
    requires forall i :: 0 <= i < |ts| ==> !Mapped(env, ts[i])
    ensures forall i :: 0 <= i < |ts| ==> ts[i].operation in Walk(env, dao, ts).Keys
  {
    if ts != [] {
      var n := |ts|;
      var init := ts[..n - 1];
      UnmappedKeepBareNames(env, dao, init);
      var prev := Walk(env, dao, init);
      WalkKeysGrow(env, prev, [ts[n - 1]]);
      assert Walk(env, prev, [ts[n - 1]]) == Walk(env, dao, ts) by {
        assert [ts[n - 1]][..0] == [];
      }
      forall i | 0 <= i < n ensures ts[i].operation in Walk(env, dao, ts).Keys {
        if i < n - 1 {
          assert init[i] == ts[i];
        }
      }
    }
  }

  /** An unmapped triple whose operation name is already taken when the walk
      reaches it is exposed under its qualified name; if the name is still free,
      it gets the bare name. */
  lemma CollisionQualifies(env: Env, dao: map<string, DaoEntry>, ts: seq<Triple>, i: nat)
    requires i < |ts| && !Mapped(env, ts[i])
    ensures ts[i].operation in Walk(env, dao, ts[..i]).Keys ==> QualifiedName(ts[i]) in Walk(env, dao, ts).Keys
    ensures ts[i].operation !in Walk(env, dao, ts[..i]).Keys ==>
              Walk(env, dao, ts[..i + 1])[ts[i].operation] == NewEntry(env, ts[i])
  {
    assert ts[..i + 1][..i] == ts[..i];
    var after := Walk(env, dao, ts[..i + 1]);
    assert ts == ts[..i + 1] + ts[i + 1..];
    WalkAppend(env, dao, ts[..i + 1], ts[i + 1..]);
    WalkKeysGrow(env, after, ts[i + 1..]);
  }

  /** A triple whose bare name is taken by the end of a first walk is
      demoted to its qualified name when the walk is repeated. */
  lemma RewalkQualifiesOne(env: Env, dao: map<string, DaoEntry>, ts: seq<Triple>, i: nat)
    requires i < |ts| && !Mapped(env, ts[i])
    requires ts[i].operation in Walk(env, dao, ts).Keys
    ensures QualifiedName(ts[i]) in Walk(env, Walk(env, dao, ts), ts).Keys
  {
    var once := Walk(env, dao, ts);
    var twice := ts + ts;
    var j := |ts| + i;
    assert twice[j] == ts[i];
    assert twice[..j] == ts + ts[..i];
    WalkAppend(env, dao, ts, ts[..i]);
    assert Walk(env, dao, twice[..j]) == Walk(env, once, ts[..i]);
    WalkKeysGrow(env, once, ts[..i]);
    assert ts[i].operation in Walk(env, dao, twice[..j]).Keys;
    CollisionQualifies(env, dao, twice, j);
    WalkAppend(env, dao, ts, ts);
  }

  /** Why synthesis is guarded by a flag: walking the same unmapped triples a
      second time would demote every one of them to its qualified name. */
  lemma RewalkQualifies(env: Env, dao: map<string, DaoEntry>, ts: seq<Triple>)
    requires forall i :: 0 <= i < |ts| ==> !Mapped(env, ts[i])
    ensures forall i :: 0 <= i < |ts| ==> QualifiedName(ts[i]) in Walk(env, Walk(env, dao, ts), ts).Keys
  {
    UnmappedKeepBareNames(env, dao, ts);
    forall i | 0 <= i < |ts| ensures QualifiedName(ts[i]) in Walk(env, Walk(env, dao, ts), ts).Keys {
      RewalkQualifiesOne(env, dao, ts, i);
    }
  }
}
