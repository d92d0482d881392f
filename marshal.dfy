/** The conversion utilities `jsonToXML` and `xmlToJSON`: which serialiser a
    payload goes to, and which element of a parsed SOAP body comes back. The
    serialisers and the XML parser belong to the soap library; serialiser
    results are kept as terms naming the serialiser and its arguments, and the
    parser is a parameter. */
module Marshal {
  import opened JsValues
  import opened Wsdl

  /** How a caller names the operation: by name, to be looked up, or by the
      record bound at synthesis time (`null` when that lookup found nothing). */
  datatype MethodRef = Named(name: string) | Handle(record: Option<OperationRecord>)

  /** What `jsonToXML` returns: a string it produces itself, or the output of
      the soap library's RPC or document serialiser for the given arguments. */
  datatype Xml =
    | Text(s: string)
    | RpcXml(name: string, json: Json, alias: Js<string>, namespace: string)
    | DocumentXml(element: string, json: Json, nsAlias: Js<string>, elementNamespace: Js<string>, typ: Js<string>)

  const NotFoundPrefix: string := "Method not found in WSDL port types: "

  /** The message as the source formats it: it interpolates the failed lookup's
      result, which is always `null`, instead of the requested name. */
  function NotFoundMessageAsWritten(name: string): (r: string)
    ensures NotFoundPrefix <= r && r[|NotFoundPrefix|..] == "null"
  {
    NotFoundPrefix + "null"
  }

  /** The message naming the operation that was not found. */
  function NotFoundMessage(name: string): (r: string)
    ensures NotFoundPrefix <= r && r[|NotFoundPrefix|..] == name
  {
    NotFoundPrefix + name
  }

  /** As written, the message is the same whatever name was asked for. */
  lemma NotFoundMessageAsWrittenLosesName(a: string, b: string)
    ensures NotFoundMessageAsWritten(a) == NotFoundMessageAsWritten(b)
  {
  }

  /** Corrected, different names give different messages, and the name can be
      read back from the message. */
  lemma NotFoundMessageNamesOperation(a: string, b: string)
    ensures NotFoundMessage(a)[|NotFoundPrefix|..] == a
    ensures a != b ==> NotFoundMessage(a) != NotFoundMessage(b)
  {
    assert NotFoundMessage(a)[|NotFoundPrefix|..] == a;
    assert NotFoundMessage(b)[|NotFoundPrefix|..] == b;
  }

  /** The operation record a method reference stands for. */
  function Resolve(defs: Definitions, target: MethodRef): (r: Result<OperationRecord>)
    ensures target.Named? ==> (r.Ok? <==> exists q :: 0 <= q < |defs.portTypes| && target.name in defs.portTypes[q].methods)
    ensures target.Named? && r.Err? ==> r.error == MethodNotFound(NotFoundMessage(target.name))
    ensures target.Handle? ==> (r.Ok? <==> target.record.Some?)
    ensures target.Named? && r.Ok? ==> r.value == FindMethod(defs.portTypes, target.name).value
    ensures target.Handle? && r.Ok? ==> r.value == target.record.value
  {
    match target
    case Named(name) =>
      (match FindMethod(defs.portTypes, name)
       case None => Err(MethodNotFound(NotFoundMessage(name)))
       case Some(op) => Ok(op))
    case Handle(record) =>
      (match record
       case None => Err(TypeError("Cannot read properties of null"))
       case Some(op) => Ok(op))
  }

  /** `jsonToXML`. */
  function JsonToXml(defs: Definitions, target: MethodRef, json: Option<Json>): (r: Result<Xml>)
    ensures !Truthy(json) ==> r == Ok(Text(""))
    ensures Truthy(json) && Resolve(defs, target).Err? ==> r == Err(Resolve(defs, target).error)
    ensures r.Ok? && r.value.RpcXml? ==>
              && Truthy(json) && r.value.json == json.value
              && r.value.namespace == defs.targetNamespace
              && r.value.alias == FindKey(defs.xmlns, defs.targetNamespace)
              && r.value.name == Resolve(defs, target).value.name
              && Resolve(defs, target).Ok? && Resolve(defs, target).value.input.Some?
              && Resolve(defs, target).value.input.value.hasParts
    ensures r.Ok? && r.value.DocumentXml? ==>
              && Truthy(json) && r.value.json == json.value && !json.value.JStr?
              && Resolve(defs, target).Ok? && Resolve(defs, target).value.input.Some?
              && !Resolve(defs, target).value.input.value.hasParts
              && r.value.element == Resolve(defs, target).value.input.value.name
              && r.value.nsAlias == Resolve(defs, target).value.input.value.targetNSAlias
              && r.value.elementNamespace == Resolve(defs, target).value.input.value.targetNamespace
              && r.value.typ == Resolve(defs, target).value.input.value.typ
    ensures r.Ok? && r.value.Text? && r.value.s != "" ==> json == Some(JStr(r.value.s))
    ensures Truthy(json) && Resolve(defs, target).Ok? ==>
              (r.Ok? <==> Resolve(defs, target).value.input.Some?)
  {
    if !Truthy(json) then Ok(Text(""))
    else
      match Resolve(defs, target)
      case Err(e) => Err(e)
      case Ok(op) =>
        match op.input
        case None => Err(TypeError("Cannot read properties of undefined (reading 'parts')"))
        case Some(input) =>
          if input.hasParts then
            Ok(RpcXml(op.name, json.value, FindKey(defs.xmlns, defs.targetNamespace), defs.targetNamespace))
          else if json.value.JStr? then Ok(Text(json.value.s))
          else Ok(DocumentXml(input.name, json.value, input.targetNSAlias, input.targetNamespace, input.typ))
  }

  /** The serialisation style follows the input message: RPC exactly when it
      has parts; a document-style string is passed through, anything else is
      serialised as a document. */
  lemma JsonToXmlStyle(defs: Definitions, target: MethodRef, json: Json, op: OperationRecord, input: Message)
    requires Truthy(Some(json)) && Resolve(defs, target) == Ok(op) && op.input == Some(input)
    ensures JsonToXml(defs, target, Some(json)).Ok?
    ensures JsonToXml(defs, target, Some(json)).value.RpcXml? <==> input.hasParts
    ensures JsonToXml(defs, target, Some(json)).value.Text? <==> !input.hasParts && json.JStr?
    ensures JsonToXml(defs, target, Some(json)).value.DocumentXml? <==> !input.hasParts && !json.JStr?
  {
  }

  predicate EndsWith(s: string, suffix: string) {
    |suffix| <= |s| && s[|s| - |suffix|..] == suffix
  }

  /** The suffixes the response-name fallback removes. */
  const ResponseSuffixes: set<string> := {"Out", "Output", "Response"}

  /** `name.replace(/(?:Out(?:put)?|Response)$/, '')`: a match must run to the
      end of the name and the three alternatives cannot end the same name, so
      the regular expression removes the one suffix the name ends with, once. */
  function StripSuffix(name: string): (r: string)
    ensures r <= name
    ensures |name| - |r| in {0, 3, 6, 8}
    ensures r == name <==> forall suffix :: suffix in ResponseSuffixes ==> !EndsWith(name, suffix)
  {
    if EndsWith(name, "Output") then name[..|name| - 6]
    else if EndsWith(name, "Out") then name[..|name| - 3]
    else if EndsWith(name, "Response") then name[..|name| - 8]
    else name
  }

  /** Stripping undoes appending any one of the suffixes. */
  lemma StripAddedSuffix(base: string, suffix: string)
    requires suffix in ResponseSuffixes
    ensures StripSuffix(base + suffix) == base
  {
    var s := base + suffix;
    assert s[..|base|] == base;
    assert s[|s| - |suffix|..] == suffix;
    if suffix == "Out" {
      assert s[|s| - 3..] == "Out";
      assert !EndsWith(s, "Output") by {
        assert s[|s| - 3] == 'O';
        if |s| >= 6 { assert s[|s| - 6..][3] == s[|s| - 3]; }
      }
    } else if suffix == "Response" {
      assert s[|s| - 1] == 'e';
      assert !EndsWith(s, "Output") by {
        if |s| >= 6 { assert s[|s| - 6..][5] == s[|s| - 1]; }
      }
      assert !EndsWith(s, "Out") by {
        assert s[|s| - 3..][2] == s[|s| - 1];
      }
    }
  }

  /** `xmlToJSON`: the body element named after the output message, else the
      one named after the input message, else the one named after the output
      message without its suffix; `None` is JavaScript's `undefined`. */
  function XmlToJson(defs: Definitions, target: MethodRef, xml: Js<string>, parse: string -> map<string, Json>)
    : (r: Result<Option<Json>>)
    ensures !StrTruthy(xml) ==> r == Ok(Some(JObj(map[])))
    ensures StrTruthy(xml) && Resolve(defs, target).Err? ==> r == Err(Resolve(defs, target).error)
    ensures StrTruthy(xml) && Resolve(defs, target).Ok? && Resolve(defs, target).value.output.None? ==> r.Err?
    ensures r.Ok? && Truthy(r.value) && StrTruthy(xml) ==>
              exists key :: key in parse(xml.v) && r.value == Some(parse(xml.v)[key])
  {
    if !StrTruthy(xml) then Ok(Some(JObj(map[])))
    else
      match Resolve(defs, target)
      case Err(e) => Err(e)
      case Ok(op) =>
        var body := parse(xml.v);
        match op.output
        case None => Err(TypeError("Cannot read properties of undefined (reading '$name')"))
        case Some(output) =>
          var first := Lookup(body, output.name);
          if Truthy(first) then Ok(first)
          else
            match op.input
            case None => Err(TypeError("Cannot read properties of undefined (reading '$name')"))
            case Some(input) =>
              var second := Lookup(body, input.name);
              if Truthy(second) then Ok(second)
              else Ok(Lookup(body, StripSuffix(output.name)))
  }

  /** The lookup order: the output element wins; failing that the input
      element (a request body); failing both, the element named after the
      output message with its suffix removed, which may be missing. */
  lemma XmlToJsonFallbacks(defs: Definitions, target: MethodRef, xml: string, parse: string -> map<string, Json>,
                           op: OperationRecord, input: Message, output: Message)
    requires xml != "" && Resolve(defs, target) == Ok(op)
    requires op.input == Some(input) && op.output == Some(output)
    ensures Truthy(Lookup(parse(xml), output.name)) ==>
              XmlToJson(defs, target, Val(xml), parse) == Ok(Lookup(parse(xml), output.name))
    ensures !Truthy(Lookup(parse(xml), output.name)) && Truthy(Lookup(parse(xml), input.name)) ==>
              XmlToJson(defs, target, Val(xml), parse) == Ok(Lookup(parse(xml), input.name))
    ensures !Truthy(Lookup(parse(xml), output.name)) && !Truthy(Lookup(parse(xml), input.name)) ==>
              XmlToJson(defs, target, Val(xml), parse) == Ok(Lookup(parse(xml), StripSuffix(output.name)))
  {
  }

  /** A response whose element is named after the output message minus its
      `Out`/`Output`/`Response` suffix is still found. */
  lemma SuffixedOutputResolves(defs: Definitions, target: MethodRef, xml: string, parse: string -> map<string, Json>,
                               op: OperationRecord, input: Message, output: Message, base: string, suffix: string)
    requires xml != "" && Resolve(defs, target) == Ok(op)
    requires op.input == Some(input) && op.output == Some(output)
    requires suffix in ResponseSuffixes && output.name == base + suffix
    requires output.name !in parse(xml) && input.name !in parse(xml) && base in parse(xml)
    ensures XmlToJson(defs, target, Val(xml), parse) == Ok(Some(parse(xml)[base]))
  {
    StripAddedSuffix(base, suffix);
  }

  /** A document-style request serialised by `jsonToXML` comes back unchanged
      from `xmlToJSON` on the same operation, given a parser that reads the
      serialised element back under its own name. */
  lemma DocumentRequestRoundTrip(defs: Definitions, name: string, json: map<string, Json>,
                                 op: OperationRecord, input: Message,
                                 render: Xml -> string, parse: string -> map<string, Json>)
    requires FindMethod(defs.portTypes, name) == Some(op)
    requires op.input == Some(input) && !input.hasParts && op.output.Some?
    requires render(DocumentXml(input.name, JObj(json), input.targetNSAlias, input.targetNamespace, input.typ)) != ""
    requires parse(render(DocumentXml(input.name, JObj(json), input.targetNSAlias, input.targetNamespace, input.typ)))
             == map[input.name := JObj(json)]
    ensures JsonToXml(defs, Named(name), Some(JObj(json))).Ok?
    ensures XmlToJson(defs, Named(name), Val(render(JsonToXml(defs, Named(name), Some(JObj(json))).value)), parse)
            == Ok(Some(JObj(json)))
  {
  }
}
