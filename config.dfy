/** The connector's settings and what it derives from them: the endpoint and
    WSDL location, the `ignoredNamespaces` default, the security strategy, the
    SOAP action override and the SOAP header fragments added to the client. */
module Config {
  import opened JsValues
  import opened Wsdl

  datatype IgnoredNamespaces = IgnoredNamespaces(namespaces: seq<string>, override: bool)

  /** The properties a security strategy is built from, read either from
      `settings.security` or from the settings themselves. The strategies'
      `options` objects are carried as opaque tokens. */
  datatype SecurityConfig = SecurityConfig(
    scheme: Js<string>,
    username: Js<string>,
    password: Js<string>,
    passwordType: Js<string>,
    options: Js<string>,
    privatePEM: Js<string>,
    publicP12PEM: Js<string>,
    encoding: Js<string>,
    pfx: Js<string>,
    passphrase: Js<string>,
    keyPath: Js<string>,
    key: Js<string>,
    certPath: Js<string>,
    cert: Js<string>,
    ca: Js<string>,
    caPath: Js<string>,
    token: Js<string>)

  /** An entry of `settings.soapHeaders`: a string, an element description
      (`typeof header === 'object'`), or anything else, which is skipped. */
  datatype Header =
    | StringHeader(text: string)
    | ElementHeader(element: Json, name: Js<string>, prefix: Js<string>, namespace: Js<string>)
    | OtherHeader

  /** A header fragment handed to `client.addSoapHeader`: the string itself, or
      what the soap library's `objectToXML` makes of an element description. */
  datatype Fragment =
    | Literal(text: string)
    | ElementXml(element: Json, name: Js<string>, prefix: Js<string>, namespace: Js<string>)

  /** One entry of `settings.operations`: the method name `key` bound to a
      service, a port and (optionally) an operation. */
  datatype Mapping = Mapping(key: string, service: Js<string>, port: Js<string>, operation: Js<string>)

  datatype Settings = Settings(
    endpoint: Js<string>,
    url: Js<string>,
    wsdl: Js<string>,
    ignoredNamespaces: Js<IgnoredNamespaces>,
    security: Js<SecurityConfig>,
    credentials: SecurityConfig,
    soapAction: Js<string>,
    SOAPAction: Js<string>,
    soapHeaders: Option<seq<Header>>,
    operations: seq<Mapping>,
    remotingEnabled: bool)

  /** The security strategies of the soap library, with the arguments the
      connector passes to their constructors. */
  datatype Security =
    | WSSecurity(username: Js<string>, password: Js<string>, passwordTypeOrOptions: Js<string>)
    | WSSecurityCert(privatePEM: Js<string>, publicP12PEM: Js<string>, password: Js<string>, encoding: Js<string>)
    | ClientSSLSecurityPFX(pfx: Js<string>, passphrase: Js<string>, options: Js<string>)
    | ClientSSLSecurity(key: Js<string>, cert: Js<string>, ca: Js<string>, options: Js<string>)
    | BearerSecurity(token: Js<string>, options: Js<string>)
    | BasicAuthSecurity(username: Js<string>, password: Js<string>, options: Js<string>)

  /** The loaded soap client, as far as the connector configures it. */
  datatype Client = Client(
    wsdl: Definitions,
    security: Option<Security>,
    soapAction: Js<string>,
    soapHeaders: seq<Fragment>)

  const KnownSchemes: set<Js<string>> :=
    {Val("WS"), Val("WSSecurity"), Val("WSSecurityCert"), Val("ClientSSL"), Val("Bearer")}

  /** The WSDL location: `settings.wsdl`, or else the endpoint (itself
      `settings.endpoint`, or else `settings.url`) followed by `?wsdl`. */
  function WsdlLocation(s: Settings): (r: string)
    ensures StrTruthy(s.wsdl) ==> r == s.wsdl.v
    ensures !StrTruthy(s.wsdl) && StrTruthy(s.endpoint) ==> r == s.endpoint.v + "?wsdl"
    ensures !StrTruthy(s.wsdl) && !StrTruthy(s.endpoint) ==> r == StrText(s.url) + "?wsdl"
    ensures !StrTruthy(s.wsdl) && !StrTruthy(s.endpoint) && s.url == Undef ==> r == "undefined?wsdl"
  {
    if StrTruthy(s.wsdl) then s.wsdl.v
    else StrText(StrOr(s.endpoint, s.url)) + "?wsdl"
  }

  /** `ignoredNamespaces` after the constructor: a null or undefined setting
      becomes "ignore none, override on"; any other value is kept. */
  function WithDefaultNamespaces(x: Js<IgnoredNamespaces>): (r: Js<IgnoredNamespaces>)
    ensures r.Val?
    ensures x.Val? ==> r == x
    ensures !x.Val? ==> r.v.namespaces == [] && r.v.override
  {
    if x.Val? then x else Val(IgnoredNamespaces([], true))
  }

  /** Where the security properties come from, when security is configured at all. */
  function SecuritySource(s: Settings): (r: Option<SecurityConfig>)
    ensures r.Some? <==> s.security.Val? || StrTruthy(s.credentials.username)
    ensures s.security.Val? ==> r == Some(s.security.v)
    ensures !s.security.Val? && r.Some? ==> r.value == s.credentials
  {
    if s.security.Val? || StrTruthy(s.credentials.username) then
      Some(if s.security.Val? then s.security.v else s.credentials)
    else None
  }

  /** The strategy a scheme tag selects, with the `ClientSSL` branch choosing
      PFX exactly when the configuration carries a `pfx`. */
  function Strategy(c: SecurityConfig): (r: Security)
    ensures r.WSSecurity? <==> c.scheme == Val("WS") || c.scheme == Val("WSSecurity")
    ensures r.WSSecurityCert? <==> c.scheme == Val("WSSecurityCert")
    ensures r.ClientSSLSecurityPFX? <==> c.scheme == Val("ClientSSL") && StrTruthy(c.pfx)
    ensures r.ClientSSLSecurity? <==> c.scheme == Val("ClientSSL") && !StrTruthy(c.pfx)
    ensures r.BearerSecurity? <==> c.scheme == Val("Bearer")
    ensures r.BasicAuthSecurity? <==> c.scheme !in KnownSchemes
    ensures r.WSSecurity? ==> r == WSSecurity(c.username, c.password, StrOr(c.passwordType, c.options))
    ensures r.WSSecurityCert? ==> r == WSSecurityCert(c.privatePEM, c.publicP12PEM, c.password, c.encoding)
    ensures r.ClientSSLSecurityPFX? ==> r == ClientSSLSecurityPFX(c.pfx, c.passphrase, c.options)
    ensures r.ClientSSLSecurity? ==>
              r == ClientSSLSecurity(StrOr(c.keyPath, c.key), StrOr(c.certPath, c.cert), StrOr(c.ca, c.caPath), c.options)
    ensures r.BearerSecurity? ==> r == BearerSecurity(c.token, c.options)
    ensures r.BasicAuthSecurity? ==> r == BasicAuthSecurity(c.username, c.password, c.options)
  {
    if c.scheme == Val("WS") || c.scheme == Val("WSSecurity") then
      WSSecurity(c.username, c.password, StrOr(c.passwordType, c.options))
    else if c.scheme == Val("WSSecurityCert") then
      WSSecurityCert(c.privatePEM, c.publicP12PEM, c.password, c.encoding)
    else if c.scheme == Val("ClientSSL") then
      if StrTruthy(c.pfx) then ClientSSLSecurityPFX(c.pfx, c.passphrase, c.options)
      else ClientSSLSecurity(StrOr(c.keyPath, c.key), StrOr(c.certPath, c.cert), StrOr(c.ca, c.caPath), c.options)
    else if c.scheme == Val("Bearer") then
      BearerSecurity(c.token, c.options)
    else
      BasicAuthSecurity(c.username, c.password, c.options)
  }

  /** The strategy set on the client after loading, if any. */
  function SelectSecurity(s: Settings): (r: Option<Security>)
    ensures r.Some? <==> s.security.Val? || StrTruthy(s.credentials.username)
    ensures r.Some? && s.security.Val? ==> r.value == Strategy(s.security.v)
    ensures r.Some? && !s.security.Val? ==> r.value == Strategy(s.credentials)
  {
    match SecuritySource(s)
    case None => None
    case Some(c) => Some(Strategy(c))
  }

  /** The selection as the source writes it: the `ClientSSL` branch reads `pfx`
      from the strategy variable, which is still `null` there, so it throws. */
  function SelectSecurityAsWritten(s: Settings): (r: Option<Result<Security>>)
    ensures r.Some? <==> s.security.Val? || StrTruthy(s.credentials.username)
    ensures r.Some? ==> (r.value.Err? <==> SecuritySource(s).value.scheme == Val("ClientSSL"))
    ensures r.Some? && r.value.Err? ==> r.value.error.TypeError?
  {
    match SecuritySource(s)
    case None => None
    case Some(c) =>
      if c.scheme == Val("ClientSSL") then Some(Err(TypeError("Cannot read properties of null (reading 'pfx')")))
      else Some(Ok(Strategy(c)))
  }

  /** As written, every `ClientSSL` configuration throws, with or without a
      `pfx`, while every other scheme gets the same strategy as the corrected
      selection. */
  lemma ClientSslAsWrittenThrows(s: Settings)
    requires SecuritySource(s).Some?
    ensures SecuritySource(s).value.scheme == Val("ClientSSL") ==> SelectSecurityAsWritten(s).value.Err?
    ensures SecuritySource(s).value.scheme != Val("ClientSSL") ==>
              SelectSecurityAsWritten(s) == Some(Ok(SelectSecurity(s).value))
  {
  }

  /** Corrected: a `ClientSSL` configuration yields a strategy, PFX-based exactly
      when a `pfx` is configured. */
  lemma ClientSslSelectsByPfx(s: Settings)
    requires SecuritySource(s).Some? && SecuritySource(s).value.scheme == Val("ClientSSL")
    ensures SelectSecurity(s).Some?
    ensures SelectSecurity(s).value.ClientSSLSecurityPFX? <==> StrTruthy(SecuritySource(s).value.pfx)
    ensures SelectSecurity(s).value.ClientSSLSecurity? <==> !StrTruthy(SecuritySource(s).value.pfx)
  {
  }

  /** Security is applied exactly when `security` or a truthy `username` is
      configured; with neither, the connector builds no strategy, and with
      credentials but an unknown or missing scheme it falls back to basic auth. */
  lemma SecurityAppliedIffConfigured(s: Settings)
    ensures SelectSecurity(s).Some? <==> s.security.Val? || StrTruthy(s.credentials.username)
    ensures SelectSecurity(s).Some? && SecuritySource(s).value.scheme !in KnownSchemes ==>
              SelectSecurity(s).value.BasicAuthSecurity?
  {
  }

  /** The SOAP action override: `soapAction`, or else `SOAPAction`. */
  function SoapActionOverride(s: Settings): (r: Option<string>)
    ensures r.Some? <==> StrTruthy(s.soapAction) || StrTruthy(s.SOAPAction)
    ensures StrTruthy(s.soapAction) ==> r == Some(s.soapAction.v)
    ensures !StrTruthy(s.soapAction) && StrTruthy(s.SOAPAction) ==> r == Some(s.SOAPAction.v)
  {
    var a := StrOr(s.soapAction, s.SOAPAction);
    if StrTruthy(a) then Some(a.v) else None
  }

  /** The fragment one header contributes: none for headers that are neither
      strings nor objects. */
  function HeaderFragment(h: Header): seq<Fragment>
  {
    match h
    case StringHeader(text) => [Literal(text)]
    case ElementHeader(element, name, prefix, namespace) => [ElementXml(element, name, prefix, namespace)]
    case OtherHeader => []
  }

  /** The fragments added for a header list, in list order. */
  function HeaderFragments(hs: seq<Header>): (r: seq<Fragment>)
    ensures |r| <= |hs|
  {
    if hs == [] then [] else HeaderFragments(hs[..|hs| - 1]) + HeaderFragment(hs[|hs| - 1])
  }

  /** Adding two header lists one after the other adds the fragments of the
      first, then those of the second. */
  lemma {:induction false} HeaderFragmentsAppend(hs1: seq<Header>, hs2: seq<Header>)
    ensures HeaderFragments(hs1 + hs2) == HeaderFragments(hs1) + HeaderFragments(hs2)
    decreases |hs2|
  {
    if hs2 == [] {
      assert hs1 + hs2 == hs1;
    } else {
      var n := |hs2|;
      assert (hs1 + hs2)[..|hs1 + hs2| - 1] == hs1 + hs2[..n - 1];
      assert (hs1 + hs2)[|hs1 + hs2| - 1] == hs2[n - 1];
      HeaderFragmentsAppend(hs1, hs2[..n - 1]);
    }
  }

  /** With no skipped header, each header adds exactly one fragment, in
      order: a string header itself, an element header the serialisation of
      its element with its name, prefix and namespace. */
  lemma {:induction false} HeadersAddOneFragmentEach(hs: seq<Header>)
    requires forall i :: 0 <= i < |hs| ==> !hs[i].OtherHeader?
    ensures |HeaderFragments(hs)| == |hs|
    ensures forall i :: 0 <= i < |hs| && hs[i].StringHeader? ==> HeaderFragments(hs)[i] == Literal(hs[i].text)
    ensures forall i :: 0 <= i < |hs| && hs[i].ElementHeader? ==>
              HeaderFragments(hs)[i] == ElementXml(hs[i].element, hs[i].name, hs[i].prefix, hs[i].namespace)
  {
    if hs != [] {
      HeadersAddOneFragmentEach(hs[..|hs| - 1]);
    }
  }

  /** Headers that are neither strings nor objects add nothing. */
  lemma {:induction false} OtherHeadersSkipped(hs: seq<Header>)
    requires forall i :: 0 <= i < |hs| ==> hs[i] == OtherHeader
    ensures HeaderFragments(hs) == []
  {
    if hs != [] {
      OtherHeadersSkipped(hs[..|hs| - 1]);
    }
  }

  /** The client after the post-load setup: the selected security strategy,
      the SOAP action override and the configured header fragments. */
  function Configured(s: Settings, c: Client): (r: Client)
    ensures r.wsdl == c.wsdl
    ensures c.soapHeaders <= r.soapHeaders
    ensures SelectSecurity(s).None? ==> r.security == c.security
    ensures SoapActionOverride(s).None? ==> r.soapAction == c.soapAction
  {
    Client(
      c.wsdl,
      match SelectSecurity(s) case None => c.security case Some(sec) => Some(sec),
      match SoapActionOverride(s) case None => c.soapAction case Some(a) => Val(a),
      c.soapHeaders + (if s.soapHeaders.Some? then HeaderFragments(s.soapHeaders.value) else []))
  }

  /** What the post-load setup changes on the client and what it keeps. */
  lemma ConfiguredClient(s: Settings, c: Client)
    ensures Configured(s, c).wsdl == c.wsdl
    ensures Configured(s, c).security == if SelectSecurity(s).Some? then SelectSecurity(s) else c.security
    ensures SoapActionOverride(s).Some? ==> Configured(s, c).soapAction == Val(SoapActionOverride(s).value)
    ensures SoapActionOverride(s).None? ==> Configured(s, c).soapAction == c.soapAction
    ensures s.soapHeaders.None? ==> Configured(s, c).soapHeaders == c.soapHeaders
    ensures |Configured(s, c).soapHeaders| >= |c.soapHeaders|
    ensures Configured(s, c).soapHeaders[..|c.soapHeaders|] == c.soapHeaders
  {
  }
}
