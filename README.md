# loopback-connector-soap: the connector core in Dafny

This project models the `SOAPConnector` of loopback-connector-soap
(`lib/soap-connector.js`). The connector is a LoopBack data-source connector.
It loads a WSDL through the `soap` library and turns every
(service, port, operation) triple of the loaded client into a method on the
connector's `DataAccessObject`. It also converts between JSON and SOAP XML for
those operations.

The model covers four parts:

- **Configuration** (module `Config`, class constructor in `Connector`). The
  constructor derives the endpoint (`endpoint`, else `url`) and the WSDL location
  (`wsdl`, else endpoint + `?wsdl`). It also fills in the default
  `ignoredNamespaces`.
- **Connecting** (`Connector.SoapConnector.Connect`). A cached client is handed
  back without loading. A successful load is configured and then cached:
  - the security strategy is chosen from the scheme tag (`Config.Strategy`);
  - the SOAP action override is applied;
  - the SOAP header fragments are added in list order.

  After that, the method surface is synthesised once. A failed load leaves the
  connector unconnected.
- **Method synthesis** (module `Naming`, methods `AddOperations`, `AddPorts`,
  `AddServices` and `SetupDataAccessObject` in `Connector`).
  - The specification is the function `Naming.Walk`: a left fold of one naming
    step over the triples in enumeration order.
  - The imperative nested loops are proved equal to it.
  - Lemmas state what the walk guarantees: bare names, qualified names on
    collision, mapped names, remoting flags, and why re-running it would be
    wrong.
- **Marshalling** (module `Marshal`): the dispatch of `jsonToXML` and the
  response-key fallback of `xmlToJSON`.

Foreign pieces are parameters or symbolic terms:

- WSDL loading (`soap.createClient`) is the `LoadResult` argument of `Connect`.
- The XML parser (`wsdl.xmlToObject(xml).Body`) is a function parameter `parse`.
- The serialisers (`objectToRpcXML`, `objectToDocumentXML`, `objectToXML`) and
  the security constructors return datatype terms that record their arguments.

JavaScript `undefined`/`null`/value is `JsValues.Js`. `||` on strings is
`JsValues.StrOr`.

The response fallback removes a trailing `Out`, `Output` or `Response` from
the *output message's name* (lib/soap-connector.js:273) and looks up that
shortened name in the body. An output named `GetQuoteResponse` finds the
element `GetQuote`. An output named `GetQuote` does not find an element
`GetQuoteOut`. `Marshal.StripSuffix` and `Marshal.SuffixedOutputResolves`
state this.

## Model

| member | source | states |
|---|---|---|
| JsValues.StrOr | lib/soap-connector.js:35 | `a \|\| b` on string settings: `a` when it is truthy, otherwise `b`; the result is truthy iff either operand is |
| Config.WsdlLocation | lib/soap-connector.js:35-36 | the WSDL location is `settings.wsdl` when truthy, else `endpoint + "?wsdl"` with the endpoint taken from `endpoint`, else from `url` as JavaScript prints it (`"undefined?wsdl"` or `"null?wsdl"` when unset) |
| Config.WithDefaultNamespaces | lib/soap-connector.js:39-46 | a null or undefined `ignoredNamespaces` becomes `{namespaces: [], override: true}`; any other value is kept unchanged |
| Connector.SoapConnector.constructor | lib/soap-connector.js:33-60 | the connector stores the settings with the default namespaces, the derived endpoint and WSDL location, no client, no models and an empty method table |
| Config.SecuritySource | lib/soap-connector.js:78-80 | security is configured iff `security` is set or `username` is truthy; properties come from `security` when set, else from the settings themselves |
| Config.Strategy | lib/soap-connector.js:84-123 | each scheme tag selects exactly one strategy (`WS`/`WSSecurity`, `WSSecurityCert`, `ClientSSL` split on `pfx`, `Bearer`, and basic auth for any other or missing tag); each strategy gets exactly the constructor arguments the source passes, including the `passwordType \|\| options`, `keyPath \|\| key`, `certPath \|\| cert` and `ca \|\| caPath` fallbacks. `ClientSSL` follows the corrected branch (see Findings) |
| Config.SelectSecurity | lib/soap-connector.js:78-126 | a strategy is chosen iff `security` is set or `username` is truthy; it is the strategy of `security` when set, else of the settings themselves |
| Config.SelectSecurityAsWritten | lib/soap-connector.js:79-99 | as written, the selection fails with a TypeError exactly when the scheme is `ClientSSL`; it is absent exactly when security is not configured |
| Config.SecurityAppliedIffConfigured | lib/soap-connector.js:78-126 | a strategy is set on the client iff security is configured; an unknown scheme falls back to basic auth |
| Config.ClientSslAsWrittenThrows | lib/soap-connector.js:98-99 | as written, every `ClientSSL` configuration throws a TypeError, and every other scheme gets the same strategy as the corrected selection |
| Config.ClientSslSelectsByPfx | lib/soap-connector.js:98-111 | corrected: `ClientSSL` yields the PFX strategy iff a `pfx` is configured, the key/cert strategy otherwise |
| Config.SoapActionOverride | lib/soap-connector.js:128-130 | the action is overridden iff `soapAction` or `SOAPAction` is truthy, with `soapAction` taking precedence |
| Config.HeaderFragments | lib/soap-connector.js:132-143 | a header list adds at most one fragment per header (exactly one each when none is skipped: `Config.HeadersAddOneFragmentEach`) |
| Config.HeaderFragmentsAppend | lib/soap-connector.js:132-143 | headers are added in list order: two lists in a row add the first list's fragments, then the second's |
| Config.HeadersAddOneFragmentEach | lib/soap-connector.js:137-142 | with no skipped header, each header adds exactly one fragment at its own position: a string header itself, an element header `objectToXML` of its element, name, prefix and namespace |
| Config.OtherHeadersSkipped | lib/soap-connector.js:137-142 | headers that are neither objects nor strings add nothing |
| Config.Configured | lib/soap-connector.js:78-144 | the configured client keeps the WSDL, only appends header fragments, and keeps its security and SOAP action when none is configured |
| Config.ConfiguredClient | lib/soap-connector.js:78-144 | post-load setup keeps the WSDL, replaces security only when a strategy is chosen, overrides the action only when configured, and only appends header fragments |
| Connector.AddSoapHeaders | lib/soap-connector.js:132-144 | the header loop appends exactly the fragments of the header list to the client's headers |
| Connector.ConfigureClient | lib/soap-connector.js:78-144 | the post-load statements produce the configured client: security, action override and headers |
| Connector.SoapConnector.Connect | lib/soap-connector.js:62-157 | a cached client is reported unchanged with no load; otherwise exactly one load, from the connector's WSDL location with its endpoint; failure reports the error and leaves no client; success caches the configured client and builds the method table by the walk over all triples |
| Connector.ReconnectAfterFailure | lib/soap-connector.js:62-157 | after a failed load, a second `connect` loads again and reports the configured client; both loads are from the derived WSDL location with the derived endpoint |
| Connector.ConnectIsCached | lib/soap-connector.js:64-69 | after a successful `connect`, a second one reports the same client whatever a load would return, and leaves the method table as the first one built it; only one load happens, from the derived WSDL location and endpoint |
| Wsdl.FindKey | lib/soap-connector.js:198-205 | the result is null iff no declaration is bound to the namespace; otherwise it is the alias of the first declaration bound to it |
| Wsdl.FindMethod | lib/soap-connector.js:207-218 | the result is null iff no port type has the operation; otherwise it is the record from the first port type that has it |
| Wsdl.OperationTriples | lib/soap-connector.js:298-299 | a port contributes one triple per operation, in order |
| Wsdl.ServiceTriplesOrigin | lib/soap-connector.js:294-299 | every walked triple names a service, one of its ports and one of that port's operations |
| Naming.MethodName | lib/soap-connector.js:168-186 | the first matching mapping's key wins; with no match, the name is `service_port_operation` iff the bare name is already taken, else the bare name |
| Naming.NewEntry | lib/soap-connector.js:188-195 | a synthesised method is bound to its triple and to the `findMethod` record of its operation name; it carries the shared remoting description (single `input` argument, `output` root result) iff remoting is enabled |
| Connector.PerMethodUtilitiesAgree | lib/soap-connector.js:308-311 | a synthesised method's own `jsonToXML`/`xmlToJSON` give the same result as the connector-wide utilities called with its operation name; when no port type holds the name, both fail |
| Naming.Step | lib/soap-connector.js:304-315 | one triple adds exactly its resolved method name to the table, binds it to an entry for that triple, and leaves every other entry alone |
| Naming.Walk | lib/soap-connector.js:294-318 | walking the triples never removes a name, and walking no triples leaves the table as it was |
| Naming.Synthesize | lib/soap-connector.js:289-318 | the synthesised table holds every earlier name and both utilities; with no services it is just the utilities installed |
| Naming.InstallUtilities | lib/soap-connector.js:291-292 | before the walk, the table gains `xmlToJSON` and `jsonToXML` and keeps every other entry |
| Naming.WalkAppend | lib/soap-connector.js:294-318 | walking two runs of triples equals walking the first, then the second from the resulting table |
| Naming.WalkKeysGrow | lib/soap-connector.js:304-312 | the walk never removes a name and adds at most one name per triple |
| Naming.WalkEntriesOrigin | lib/soap-connector.js:308-312 | every entry of the final table is an untouched initial entry or the entry built for one of the walked triples |
| Naming.UnmappedKeepBareNames | lib/soap-connector.js:180-185 | with no mapping for any triple, every operation's bare name ends up in the table |
| Naming.CollisionQualifies | lib/soap-connector.js:180-185 | an unmapped triple whose bare name is already taken gets its qualified name; if the name is free, the triple's entry is stored under the bare name |
| Naming.RewalkQualifiesOne | lib/soap-connector.js:285-289 | repeating the walk would move an already-present unmapped triple to its qualified name |
| Naming.RewalkQualifies | lib/soap-connector.js:285-289 | repeating the walk over unmapped triples would qualify every one of them, which is why synthesis is guarded to run once |
| Naming.RemotingMarksEveryMethod | lib/soap-connector.js:313-315 | every synthesised method carries the shared remoting description iff remoting is enabled, and none otherwise |
| Connector.AddOperations | lib/soap-connector.js:298-316 | the innermost loop leaves the table equal to the walk over that port's triples |
| Connector.AddPorts | lib/soap-connector.js:296-317 | the port loop leaves the table equal to the walk over the service's triples |
| Connector.AddServices | lib/soap-connector.js:294-318 | the service loop leaves the table equal to the walk over all triples |
| Connector.SoapConnector.SetupDataAccessObject | lib/soap-connector.js:283-327 | once `wsdlParsed` is set, the table is returned unchanged; otherwise the flag is set and the table becomes the utilities plus the walk over all triples |
| Connector.SoapConnector.Define | lib/soap-connector.js:333-336 | the model description is recorded under its model name; other models are kept |
| Connector.SoapConnector.GetTypes | lib/soap-connector.js:342-344 | the connector reports exactly the one type `soap` |
| Scenarios.SecondPortQualified | test/test.js:69-77 | with no mapping, an operation on two ports is exposed under its bare name and under the second port's qualified name, and nothing else besides the utilities |
| Scenarios.MappedPortShadowsNothing | test/test.js:214-226 | with the first port's operation mapped, the table holds the mapped key and the bare name and no qualified name |
| Marshal.Resolve | lib/soap-connector.js:224-231 | a method name resolves iff some port type holds it, to the record `findMethod` returns from the first such port type, and otherwise fails with "Method not found" naming the operation (corrected, see Findings); a handle resolves iff it holds a record, to that record |
| Marshal.JsonToXml | lib/soap-connector.js:220-250 | falsy json gives `''`; a failed lookup is rethrown; RPC XML gets the operation's name, the json, the first alias of the target namespace and that namespace; document XML gets the input element's name, alias, namespace and type with the json; a non-empty text result is the json string itself |
| Marshal.JsonToXmlStyle | lib/soap-connector.js:241-248 | with a resolved input, the result is RPC iff the input has parts, passed through iff document-style with a string, and document XML otherwise |
| Marshal.NotFoundMessageAsWritten | lib/soap-connector.js:227 | as written, the message is the prefix followed by `null`, whatever the name |
| Marshal.NotFoundMessage | lib/soap-connector.js:227 | corrected, the message is the prefix followed by the requested name |
| Marshal.NotFoundMessageAsWrittenLosesName | lib/soap-connector.js:227 | as written, the "Method not found" message is the same for every name |
| Marshal.NotFoundMessageNamesOperation | lib/soap-connector.js:227 | corrected, the message ends with the requested name, so different names give different messages |
| Marshal.StripSuffix | lib/soap-connector.js:273 | the result is a prefix of the name, shorter by 0, 3, 6 or 8 characters; it equals the name iff the name ends in none of `Out`, `Output`, `Response` |
| Marshal.StripAddedSuffix | lib/soap-connector.js:269-273 | stripping undoes appending any one of the three suffixes |
| Marshal.XmlToJson | lib/soap-connector.js:252-276 | falsy xml gives `{}`; a failed lookup is rethrown; a missing output throws; a truthy result is an element of the parsed body |
| Marshal.XmlToJsonFallbacks | lib/soap-connector.js:268-274 | the result is the output-named element if truthy, else the input-named element if truthy, else the element named after the output with its suffix removed |
| Marshal.SuffixedOutputResolves | lib/soap-connector.js:269-274 | a body whose element is the output name minus its suffix is still found |
| Marshal.DocumentRequestRoundTrip | lib/soap-connector.js:220-276 | a document-style request serialised by `jsonToXML` is read back unchanged by `xmlToJSON`, given a parser that inverts the serialiser |

## Left out

- `ping` and `ready` (lib/soap-connector.js:350-413): they depend on timers, event listeners and the host framework's connect.
- `lib/http.js` and the `httpClient` installed by the constructor (line 47): HTTP I/O and observer hooks of the host framework.
- `initialize`, `dataSource.mixin` and the loop that mixes methods into defined models (lines 16-26, 319-325): host-framework lifecycle. `Define` only records the model description.
- Debug logging and message localisation: they have no effect on results. The `{{WSDL}}` placeholder in the not-found message is written out as `WSDL`.
- `process.nextTick`: the model returns the callback's arguments instead of scheduling the callback.
- The `soap` library's own work is not modelled: WSDL loading, XML serialisation, XML parsing and the security classes. These are parameters or symbolic terms, as described above.
- `settings || {}` in the constructor: the model always receives a settings value.
- Aliasing: the constructor writes the default `ignoredNamespaces` into the caller's settings object. The model stores a copy.
- Property enumeration order: JavaScript objects (`operations`, `xmlns`, port types, services) are modelled as sequences in enumeration order.
- The `in dao` test also sees the own and inherited properties of the `DataAccessObject` function (`name`, `length`, `prototype`, `call`, `apply`, …). The model's table holds only the keys the connector writes, so an operation with one of those names is not modelled.
- Naming.NewEntry: the bound soap method and its per-method `jsonToXML`/`xmlToJSON` are recorded as the triple and its `findMethod` record, not as closures; `Connector.PerMethodUtilitiesAgree` states what calling them gives.
- A `soapHeaders` entry that is `null` makes `header.element` throw (`typeof null` is `'object'`). The model's header type has no null case.
- Options, certificates and keys in security settings are opaque strings. JSON numbers are integers.
- Config.Strategy: the `ClientSSL` branch follows the corrected definition in "## Findings". As written, line 99 throws a TypeError for every `ClientSSL` configuration; `Config.SelectSecurityAsWritten` models that.
- Connector.SoapConnector.Connect: it uses the corrected security selection. As written, a `ClientSSL` configuration throws inside the load callback (line 99), so `client` is never set (line 147) and the callback is never called (line 151). The model instead caches a configured client.
- Marshal.Resolve: its not-found error uses the corrected message from "## Findings", and so do `Marshal.JsonToXml` and `Marshal.XmlToJson`. As written, lines 227 and 259 format `null` in place of the name; `Marshal.NotFoundMessageAsWritten` models that.
- Connector.SoapConnector.Connect: `connect` is modelled as atomic, because the load result is an argument. In the source, two `connect` calls made before the first load's callback both see no client and both load (lines 64, 73). The later success overwrites `client` (line 147). Its `setupDataAccessObject` is skipped by `wsdlParsed` (line 285), so the method table stays bound to the first client. Overlapping connects are not modelled.
- Marshal.XmlToJson: a parse result without a `Body` property is not modelled; `parse` returns the body directly.

## Findings

| source | as written | input that shows it | evidently intended | confidence | as-written member | corrected member |
|---|---|---|---|---|---|---|
| lib/soap-connector.js:98-99 | the `ClientSSL` branch tests `sec.pfx` while `sec` is still `null` | settings `{security: {scheme: 'ClientSSL', pfx: 'cert.pfx'}}` throws a TypeError after the WSDL loads | test `secConfig.pfx`: PFX strategy when a `pfx` is configured, key/cert strategy otherwise | high, not executed | Config.ClientSslAsWrittenThrows | Config.ClientSslSelectsByPfx |
| lib/soap-connector.js:227 | the "Method not found" message interpolates `m`, the failed lookup's `null`; line 259 in `xmlToJSON` does the same | `jsonToXML('NoSuchOp', {a: 1})` reports `... port types: null` | interpolate the requested method name | high, not executed | Marshal.NotFoundMessageAsWrittenLosesName | Marshal.NotFoundMessageNamesOperation |
