// The remote sensitivity-analysis provider: it serialises the request into a
// three-part multipart body, posts it to the server URI derived from the
// configured base URL, and decodes the reply against the caller's factors.
// The HTTP exchange itself, the network XML writer and the parameters JSON
// writer are outside the model: their outcomes are parameters.

module SensitivityComputationClient {
  import opened Wrappers
  import opened Sensitivity
  import opened InternalSensitivityInputsProvider
  import opened JsonSensitivityInputs
  import opened JsonSensitivityOutputs

  const ProviderName: string := "SensitivityComputationClient"
  const ProviderVersion: string := "1.0.0"

  // ---------------------------------------------------------------------
  // Server URI (RFC 2396, section 5.2)
  // ---------------------------------------------------------------------

  /** A hierarchical URI split into its components. */
  datatype Uri = Uri(scheme: string, authority: string, path: string,
                     query: Option<string>, fragment: Option<string>)

  function UriText(u: Uri): string {
    u.scheme + "://" + u.authority + u.path
    + (if u.query.Some? then "?" + u.query.value else "")
    + (if u.fragment.Some? then "#" + u.fragment.value else "")
  }

  /** The base URL used when the configuration names none. */
  const DefaultBaseUrl: string := "http://localhost:8080/"
  const DefaultBase: Uri := Uri("http", "localhost:8080", "/", None, None)

  /** The reference the client resolves against the base URL, without its leading "./". */
  const ServicePath: string := "api/v1/sensitivity-computation"

  /**
   * All but the last segment of a path: everything up to and including its
   * right-most slash (RFC 2396, section 5.2, step 6a).
   */
  function Directory(path: string): (d: string)
    ensures d <= path
    ensures d == [] || d[|d| - 1] == '/'
    ensures forall i :: |d| <= i < |path| ==> path[i] != '/'
  {
    if path == [] then []
    else if path[|path| - 1] == '/' then path
    else Directory(path[..|path| - 1])
  }

  /**
   * `URI.create(baseUrl).resolve("./api/v1/sensitivity-computation")`: the
   * reference has no scheme, authority, query or fragment, so the result
   * keeps the base's scheme and authority, drops its query and fragment, and
   * takes as path the base's directory followed by the reference, whose
   * single "./" segment is removed (steps 6a-6c). Dot segments inside the
   * base path are not normalised here.
   */
  function ServerUri(base: Uri): Uri {
    Uri(base.scheme, base.authority, Directory(base.path) + ServicePath, None, None)
  }

  /**
   * The resolved URI keeps the base's scheme and authority, drops its query
   * and fragment, and its path is some prefix `d` of the base path that is
   * empty or ends in a slash, with no slash in the rest of the base path,
   * followed by the service path.
   */
  lemma ServerUriResolvesAgainstBase(base: Uri)
    ensures var r := ServerUri(base);
            && r.scheme == base.scheme && r.authority == base.authority
            && r.query == None && r.fragment == None
            && |ServicePath| <= |r.path|
            && var d := r.path[..|r.path| - |ServicePath|];
               && r.path == d + ServicePath
               && d <= base.path
               && (d == [] || d[|d| - 1] == '/')
               && forall i :: |d| <= i < |base.path| ==> base.path[i] != '/'
  {
    var r := ServerUri(base);
    assert r.path[..|r.path| - |ServicePath|] == Directory(base.path);
  }

  /** A base path ending in a slash keeps all of its segments. */
  lemma {:induction false} TrailingSlashKeepsPath(base: Uri)
    requires base.path != [] && base.path[|base.path| - 1] == '/'
    ensures ServerUri(base).path == base.path + ServicePath
  {
  }

  /** A base path not ending in a slash loses its last segment. */
  lemma {:induction false} LastSegmentReplaced(dir: string, segment: string, base: Uri)
    requires dir == [] || dir[|dir| - 1] == '/'
    requires segment != [] && forall i :: 0 <= i < |segment| ==> segment[i] != '/'
    requires base.path == dir + segment
    ensures ServerUri(base).path == dir + ServicePath
    decreases |segment|
  {
    if |segment| == 1 {
      assert base.path[..|base.path| - 1] == dir;
      DirectoryOfDirectory(dir);
    } else {
      var shorter := segment[..|segment| - 1];
      assert base.path[..|base.path| - 1] == dir + shorter;
      LastSegmentReplaced(dir, shorter, base.(path := dir + shorter));
    }
  }

  lemma DirectoryOfDirectory(dir: string)
    requires dir == [] || dir[|dir| - 1] == '/'
    ensures Directory(dir) == dir
  {
  }

  /**
   * The default configuration posts to the default base URL followed by the
   * service path, http://localhost:8080/api/v1/sensitivity-computation.
   */
  lemma DefaultServerUri()
    ensures UriText(DefaultBase) == DefaultBaseUrl
    ensures UriText(ServerUri(DefaultBase)) == DefaultBaseUrl + ServicePath
  {
    assert Directory(DefaultBase.path) == "/";
    var r := ServerUri(DefaultBase);
    assert r.path == "/" + ServicePath;
    Concatenation("http", "://", "localhost:8080", "/", ServicePath);
    AuthorityText("/");
    DefaultBaseText();
  }

  /**
   * A base URL with an authority but an empty path ("http://localhost:8080")
   * has an empty directory, so under section 5.2 of RFC 2396 the service path
   * is glued to the authority, with no slash between them; RFC 3986 would
   * insert one.
   */
  lemma EmptyBasePathGluesAuthority()
    ensures UriText(ServerUri(Uri("http", "localhost:8080", "", None, None)))
         == "http://localhost:8080" + ServicePath
  {
    var r := ServerUri(Uri("http", "localhost:8080", "", None, None));
    assert r.path == ServicePath;
    Concatenation("http", "://", "localhost:8080", "", ServicePath);
    AuthorityText("");
    assert "http://localhost:8080" + "" == "http://localhost:8080";
  }

  lemma Concatenation(a: string, b: string, c: string, d: string, e: string)
    ensures a + b + c + d + e + "" + "" == (((a + b) + c) + d) + e
    ensures a + b + c + (d + e) + "" + "" == (((a + b) + c) + d) + e
    ensures a + b + c + d + "" + "" == ((a + b) + c) + d
  {
  }

  lemma AuthorityText(d: string)
    ensures ("http" + "://" + "localhost:8080") + d == "http://localhost:8080" + d
  {
    assert "http" + "://" == "http://";
    assert "http://" + "localhost:8080" == "http://localhost:8080";
  }

  lemma DefaultBaseText()
    ensures "http://localhost:8080" + "/" == DefaultBaseUrl
  {
  }

  // ---------------------------------------------------------------------
  // Network part: switch to the requested variant, write, switch back
  // ---------------------------------------------------------------------

  /** The XML export of one network, taken at one variant. */
  datatype NetworkFile = NetworkFile(networkId: string, variantId: string)

  /**
   * What writing the network at `workingStateId` yields: the switch fails on
   * an unknown variant, the foreign XML writer may fail (`writeFails`), and
   * otherwise the export is taken at the requested variant.
   */
  function NetworkBytes(networkId: string, variantIds: set<string>, workingStateId: string, writeFails: bool)
    : (r: Result<NetworkFile, Error>)
    ensures r.Ok? <==> workingStateId in variantIds && !writeFails
    ensures r.Ok? ==> r.value == NetworkFile(networkId, workingStateId)
    ensures workingStateId !in variantIds ==> r == Err(VariantNotFound(workingStateId))
    ensures workingStateId in variantIds && writeFails ==> r == Err(Io)
  {
    if workingStateId !in variantIds then Err(VariantNotFound(workingStateId))
    else if writeFails then Err(Io)
    else Ok(NetworkFile(networkId, workingStateId))
  }

  /**
   * `getNetworkBytes`: remember the working variant, switch to
   * `workingStateId`, write the network, switch back. The restore is not in
   * a `finally` block, so a failing write leaves the network on
   * `workingStateId`; in every other case the working variant is as before.
   */
  method GetNetworkBytes(network: Network, workingStateId: string, writeFails: bool)
    returns (r: Result<NetworkFile, Error>)
    requires network.Valid()
    modifies network
    ensures network.Valid()
    ensures r == NetworkBytes(network.id, network.variantIds, workingStateId, writeFails)
    ensures network.workingVariantId == if r == Err(Io) then workingStateId else old(network.workingVariantId)
  {
    var initialVariant := network.workingVariantId;
    var switched := network.SetWorkingVariant(workingStateId);
    if switched.Err? {
      return Err(switched.error);
    }
    if writeFails {
      return Err(Io);
    }
    var file := NetworkFile(network.id, network.workingVariantId);
    var restored := network.SetWorkingVariant(initialVariant);
    assert restored.Ok?;
    r := Ok(file);
  }

  // ---------------------------------------------------------------------
  // Multipart body
  // ---------------------------------------------------------------------

  datatype MediaType = ApplicationXml | ApplicationJson

  /** What a part carries; the parameters arrive already serialised by a foreign writer. */
  datatype Payload =
    | NetworkPayload(file: NetworkFile)
    | InputsPayload(inputs: InputsDocument)
    | ParametersPayload(parameters: string)

  datatype Part = Part(name: string, payload: Payload, mediaType: MediaType, filename: string)

  /** `MultipartBodyBuilder`: parts in the order they were added. */
  class BodyBuilder {
    var parts: seq<Part>

    constructor ()
      ensures parts == []
    {
      parts := [];
    }

    /** `builder.part(name, content, mediaType).filename(filename)`. */
    method AddPart(name: string, payload: Payload, mediaType: MediaType, filename: string)
      modifies this
      ensures parts == old(parts) + [Part(name, payload, mediaType, filename)]
    {
      parts := parts + [Part(name, payload, mediaType, filename)];
    }
  }

  /** The three parts of the request, in order, with their media types and file names. */
  predicate IsRequestBody(body: seq<Part>, file: NetworkFile, inputs: InputsDocument, parameters: string) {
    && |body| == 3
    && body[0] == Part("networkFile", NetworkPayload(file), ApplicationXml, "network.xiidm")
    && body[1] == Part("inputsFile", InputsPayload(inputs), ApplicationJson, "inputs.json")
    && body[2] == Part("parametersFile", ParametersPayload(parameters), ApplicationJson, "parameters.json")
  }

  /**
   * The body `createBody` yields from the outcomes of its part writers: the
   * first failing writer's error, or the three parts.
   */
  function Body(file: Result<NetworkFile, Error>, inputs: Result<InputsDocument, Error>, parameters: string)
    : (r: Result<seq<Part>, Error>)
    ensures r.Ok? <==> file.Ok? && inputs.Ok?
    ensures r.Ok? ==> IsRequestBody(r.value, file.value, inputs.value, parameters)
    ensures file.Err? ==> r == Err(file.error)
    ensures file.Ok? && inputs.Err? ==> r == Err(inputs.error)
  {
    if file.Err? then Err(file.error)
    else if inputs.Err? then Err(inputs.error)
    else Ok([Part("networkFile", NetworkPayload(file.value), ApplicationXml, "network.xiidm"),
             Part("inputsFile", InputsPayload(inputs.value), ApplicationJson, "inputs.json"),
             Part("parametersFile", ParametersPayload(parameters), ApplicationJson, "parameters.json")])
  }

  /** The builder calls of `createBody`: three parts added in order, then `build()`. */
  method BuildBody(file: NetworkFile, inputs: InputsDocument, parameters: string) returns (body: seq<Part>)
    ensures IsRequestBody(body, file, inputs, parameters)
  {
    var builder := new BodyBuilder();
    builder.AddPart("networkFile", NetworkPayload(file), ApplicationXml, "network.xiidm");
    builder.AddPart("inputsFile", InputsPayload(inputs), ApplicationJson, "inputs.json");
    builder.AddPart("parametersFile", ParametersPayload(parameters), ApplicationJson, "parameters.json");
    body := builder.parts;
  }

  /**
   * `createBody`: the network part, then the inputs part (the encoded
   * factors and contingencies), then the parameters part. A failing writer
   * stops the build before the later parts are computed.
   */
  method CreateBody(network: Network, workingStateId: string, factorsProvider: Provider,
                    contingencies: seq<Contingency>, parameters: string, writeFails: bool)
    returns (r: Result<seq<Part>, Error>)
    requires network.Valid()
    modifies network
    ensures network.Valid()
    ensures r == Body(NetworkBytes(network.id, network.variantIds, workingStateId, writeFails),
                      Encode(factorsProvider, contingencies), parameters)
    ensures network.workingVariantId
         == if workingStateId in network.variantIds && writeFails then workingStateId
            else old(network.workingVariantId)
  {
    var file := GetNetworkBytes(network, workingStateId, writeFails);
    if file.Err? {
      return Err(file.error);
    }
    var inputs := JsonSensitivityInputs.Write(factorsProvider, network, contingencies);
    if inputs.Err? {
      return Err(inputs.error);
    }
    var body := BuildBody(file.value, inputs.value, parameters);
    RequestBodyIsBody(body, file.value, inputs.value, parameters);
    r := Ok(body);
  }

  /** The three parts determine the body: it is the one `Body` yields when both writers succeed. */
  lemma RequestBodyIsBody(body: seq<Part>, file: NetworkFile, inputs: InputsDocument, parameters: string)
    requires IsRequestBody(body, file, inputs, parameters)
    ensures Body(Ok(file), Ok(inputs), parameters) == Ok(body)
  {
    assert body == [body[0], body[1], body[2]];
  }

  // ---------------------------------------------------------------------
  // Timeouts
  // ---------------------------------------------------------------------

  /** Java's `int`. */
  newtype Int32 = x: int | -0x8000_0000 <= x < 0x8000_0000

  /** Two's-complement truncation of an exact integer to 32 bits. */
  function WrapInt32(x: int): (w: Int32)
    ensures -0x8000_0000 <= x < 0x8000_0000 ==> w as int == x
    ensures (w as int - x) % 0x1_0000_0000 == 0
  {
    var m := x % 0x1_0000_0000;
    if m < 0x8000_0000 then m as Int32 else (m - 0x1_0000_0000) as Int32
  }

  /** `config.getTimeOutInSeconds()*1000`, an `int` product. */
  function TimeoutProduct(timeOutInSeconds: Int32): Int32 {
    WrapInt32(timeOutInSeconds as int * 1000)
  }

  /** The four limits the transport ends up applying, in milliseconds. */
  datatype Timeouts = Timeouts(connectMillis: int, readMillis: int, writeMillis: int, responseMillis: int)

  /**
   * The limits `run` sets as written. CONNECT_TIMEOUT_MILLIS and
   * `Duration.ofMillis` take milliseconds, but the single-argument
   * `ReadTimeoutHandler(int)` and `WriteTimeoutHandler(int)` take seconds,
   * so the same product becomes a limit a thousand times longer.
   */
  function TimeoutsAsWritten(timeOutInSeconds: Int32): (t: Timeouts)
    ensures t.connectMillis == t.responseMillis == TimeoutProduct(timeOutInSeconds) as int
    ensures t.readMillis == t.writeMillis == 1000 * t.connectMillis
  {
    var product := TimeoutProduct(timeOutInSeconds) as int;
    Timeouts(product, product * 1000, product * 1000, product)
  }

  /** The limits with the handlers given the timeout in seconds, as they expect. */
  function CorrectedTimeouts(timeOutInSeconds: Int32): (t: Timeouts)
    ensures t.readMillis == t.writeMillis == timeOutInSeconds as int * 1000
    ensures t.connectMillis == t.responseMillis == TimeoutProduct(timeOutInSeconds) as int
  {
    var product := TimeoutProduct(timeOutInSeconds) as int;
    Timeouts(product, timeOutInSeconds as int * 1000, timeOutInSeconds as int * 1000, product)
  }

  /** With the handlers given seconds, all four limits are the configured seconds in milliseconds. */
  lemma CorrectedTimeoutsAgree(timeOutInSeconds: Int32)
    requires 0 <= timeOutInSeconds as int <= 2147483
    ensures var t := CorrectedTimeouts(timeOutInSeconds);
            t.connectMillis == t.readMillis == t.writeMillis == t.responseMillis
              == timeOutInSeconds as int * 1000
  {
  }

  /** As written, any positive timeout gives read and write limits a thousand times the connect limit. */
  lemma AsWrittenHandlersWaitThousandfold(timeOutInSeconds: Int32)
    requires 0 < timeOutInSeconds as int <= 2147483
    ensures var t := TimeoutsAsWritten(timeOutInSeconds);
            t.connectMillis == timeOutInSeconds as int * 1000
            && t.readMillis == t.writeMillis == timeOutInSeconds as int * 1_000_000
            && t.readMillis != t.connectMillis
  {
  }

  /** A 30-second timeout: read and write limits of 30 000 s instead of 30 s. */
  lemma ThirtySecondsExample()
    ensures TimeoutsAsWritten(30) == Timeouts(30_000, 30_000_000, 30_000_000, 30_000)
    ensures CorrectedTimeouts(30) == Timeouts(30_000, 30_000, 30_000, 30_000)
  {
  }

  /**
   * From 2147484 to 4294967 seconds the `int` product overflows exactly once
   * and becomes a negative limit.
   */
  lemma ProductWraps(timeOutInSeconds: Int32)
    requires 2147483 < timeOutInSeconds as int <= 4294967
    ensures TimeoutProduct(timeOutInSeconds) as int == timeOutInSeconds as int * 1000 - 0x1_0000_0000
    ensures TimeoutProduct(timeOutInSeconds) < 0
  {
  }

  /** One second more and the product has wrapped past zero again. */
  lemma ProductWrapsBackToPositive()
    ensures TimeoutProduct(4294968) == 704
  {
  }

  // ---------------------------------------------------------------------
  // run
  // ---------------------------------------------------------------------

  /** What `run` hands to the transport. */
  datatype Request = Request(uri: Uri, body: seq<Part>, timeouts: Timeouts)

  /**
   * `run`: build the request from the configuration and the caller's inputs,
   * exchange it (`reply` is the server's decoded document or a transport
   * failure), and decode the reply against the caller's `factorsProvider`.
   * The result is returned already computed, as the completed future is.
   * The request carries the corrected limits; `TimeoutsAsWritten` gives the
   * ones the code as written sets. The network keeps its working variant,
   * except after a failing network writer, which leaves it switched.
   * A failed exchange is reported as `Transport`: the code itself has no such
   * path, since the reader then waits on a pipe nobody closes.
   */
  method Run(baseUrl: Uri, timeOutInSeconds: Int32,
             network: Network, workingVariantId: string, factorsProvider: Provider,
             contingencies: seq<Contingency>, parameters: string, writeFails: bool,
             reply: Result<OutputsDocument, Error>)
    returns (sent: Option<Request>, r: Result<AnalysisResult, Error>)
    requires network.Valid()
    modifies network
    ensures network.Valid()
    ensures network.workingVariantId
         == if workingVariantId in network.variantIds && writeFails then workingVariantId
            else old(network.workingVariantId)
    ensures var body := Body(NetworkBytes(network.id, network.variantIds, workingVariantId, writeFails),
                             Encode(factorsProvider, contingencies), parameters);
            && (sent.Some? <==> body.Ok?)
            && (sent.Some? ==> sent.value == Request(ServerUri(baseUrl), body.value, CorrectedTimeouts(timeOutInSeconds)))
            && (body.Err? ==> r == Err(body.error))
    ensures sent.Some? && reply.Err? ==> r == Err(Transport)
    ensures sent.Some? && reply.Ok? ==>
              && (r.Ok? <==> ReadSucceeds(reply.value, factorsProvider))
              && (r.Err? ==> r.error == NullPointer)
              && (r.Ok? ==> IsReadOf(reply.value, factorsProvider, r.value))
  {
    var timeouts := CorrectedTimeouts(timeOutInSeconds);
    var body := CreateBody(network, workingVariantId, factorsProvider, contingencies, parameters, writeFails);
    if body.Err? {
      return None, Err(body.error);
    }
    sent := Some(Request(ServerUri(baseUrl), body.value, timeouts));
    if reply.Err? {
      return sent, Err(Transport);
    }
    r := JsonSensitivityOutputs.Read(reply.value, factorsProvider, network);
  }
}
