/** The Glacier client facade: base-URI selection in `init`, the fixed URI template and HTTP method of
    every operation, the conversion of the shared request call's outcome into the operation's typed
    outcome, and the async helper's hand-over to the caller's handler. */
module Glacier {
  import opened Wrappers
  import Json

  datatype Scheme = Http | Https

  /** The fields of `ClientConfiguration` that `init` reads. */
  datatype ClientConfiguration = ClientConfiguration(
    scheme: Scheme,
    region: string,
    endpointOverride: string,
    authenticationRegion: string)

  /** `SchemeMapper::ToString` and `GlacierEndpoint::ForRegion`; both live outside this model. */
  datatype EndpointHelpers = EndpointHelpers(schemeName: Scheme -> string, forRegion: string -> string)

  function SchemePrefix(config: ClientConfiguration, helpers: EndpointHelpers): string {
    helpers.schemeName(config.scheme) + "://"
  }

  /** `init` as written: the regional endpoint is used only when neither an endpoint override nor
      an authentication region is configured; otherwise the override is used, even when it is empty. */
  function BaseUriAsWritten(config: ClientConfiguration, helpers: EndpointHelpers): (uri: string)
    ensures config.endpointOverride == "" && config.authenticationRegion == "" ==>
      uri == SchemePrefix(config, helpers) + helpers.forRegion(config.region)
    ensures config.endpointOverride != "" || config.authenticationRegion != "" ==>
      uri == SchemePrefix(config, helpers) + config.endpointOverride
  {
    if config.endpointOverride == "" && config.authenticationRegion == "" then
      SchemePrefix(config, helpers) + helpers.forRegion(config.region)
    else
      SchemePrefix(config, helpers) + config.endpointOverride
  }

  /** `init` as evidently intended: the authentication region only affects signing, so the host is
      the override when one is given and the regional endpoint otherwise. */
  function BaseUri(config: ClientConfiguration, helpers: EndpointHelpers): (uri: string)
    ensures config.endpointOverride == "" ==> uri == SchemePrefix(config, helpers) + helpers.forRegion(config.region)
    ensures config.endpointOverride != "" ==> uri == SchemePrefix(config, helpers) + config.endpointOverride
  {
    SchemePrefix(config, helpers) + (if config.endpointOverride == "" then helpers.forRegion(config.region) else config.endpointOverride)
  }

  /** The written `init` drops the host exactly when an authentication region is configured without an
      override and the regional endpoint is non-empty; in every other configuration it agrees with `BaseUri`. */
  lemma AsWrittenDiffersOnlyWithBareAuthRegion(config: ClientConfiguration, helpers: EndpointHelpers)
    ensures BaseUriAsWritten(config, helpers) != BaseUri(config, helpers) <==>
      config.endpointOverride == "" && config.authenticationRegion != "" && helpers.forRegion(config.region) != ""
  {
    var p := SchemePrefix(config, helpers);
    if config.endpointOverride == "" && config.authenticationRegion != "" && helpers.forRegion(config.region) != "" {
      assert |BaseUriAsWritten(config, helpers)| < |BaseUri(config, helpers)|;
    }
  }

  /** A concrete configuration on which the written `init` yields a URI with no host at all. */
  lemma AuthRegionWithoutOverrideLosesHost(helpers: EndpointHelpers)
    requires helpers.forRegion("us-west-2") != ""
    ensures BaseUriAsWritten(ClientConfiguration(Https, "us-west-2", "", "us-west-2"), helpers) == helpers.schemeName(Https) + "://"
    ensures BaseUri(ClientConfiguration(Https, "us-west-2", "", "us-west-2"), helpers) != helpers.schemeName(Https) + "://"
  {
    var c := ClientConfiguration(Https, "us-west-2", "", "us-west-2");
    assert |BaseUri(c, helpers)| > |helpers.schemeName(Https) + "://"|;
  }

  /** With an endpoint override, neither the region nor the regional endpoint table affects the base URI. */
  lemma OverrideIgnoresRegion(c1: ClientConfiguration, c2: ClientConfiguration, h1: EndpointHelpers, h2: EndpointHelpers)
    requires c1.scheme == c2.scheme && c1.endpointOverride == c2.endpointOverride && c1.endpointOverride != ""
    requires h1.schemeName == h2.schemeName
    ensures BaseUri(c1, h1) == BaseUri(c2, h2)
    ensures BaseUriAsWritten(c1, h1) == BaseUriAsWritten(c2, h2)
  {
  }

  datatype HttpMethod = HttpGet | HttpPost | HttpDelete | HttpPut

  /** One constructor per Glacier operation, carrying the path parameters its URI template reads. */
  datatype Operation =
    | AbortMultipartUpload(accountId: string, vaultName: string, uploadId: string)
    | AbortVaultLock(accountId: string, vaultName: string)
    | AddTagsToVault(accountId: string, vaultName: string)
    | CompleteMultipartUpload(accountId: string, vaultName: string, uploadId: string)
    | CompleteVaultLock(accountId: string, vaultName: string, lockId: string)
    | CreateVault(accountId: string, vaultName: string)
    | DeleteArchive(accountId: string, vaultName: string, archiveId: string)
    | DeleteVault(accountId: string, vaultName: string)
    | DeleteVaultAccessPolicy(accountId: string, vaultName: string)
    | DeleteVaultNotifications(accountId: string, vaultName: string)
    | DescribeJob(accountId: string, vaultName: string, jobId: string)
    | DescribeVault(accountId: string, vaultName: string)
    | GetDataRetrievalPolicy(accountId: string)
    | GetJobOutput(accountId: string, vaultName: string, jobId: string)
    | GetVaultAccessPolicy(accountId: string, vaultName: string)
    | GetVaultLock(accountId: string, vaultName: string)
    | GetVaultNotifications(accountId: string, vaultName: string)
    | InitiateJob(accountId: string, vaultName: string)
    | InitiateMultipartUpload(accountId: string, vaultName: string)
    | InitiateVaultLock(accountId: string, vaultName: string)
    | ListJobs(accountId: string, vaultName: string)
    | ListMultipartUploads(accountId: string, vaultName: string)
    | ListParts(accountId: string, vaultName: string, uploadId: string)
    | ListTagsForVault(accountId: string, vaultName: string)
    | ListVaults(accountId: string)
    | RemoveTagsFromVault(accountId: string, vaultName: string)
    | SetDataRetrievalPolicy(accountId: string)
    | SetVaultAccessPolicy(accountId: string, vaultName: string)
    | SetVaultNotifications(accountId: string, vaultName: string)
    | UploadArchive(accountId: string, vaultName: string)
    | UploadMultipartPart(accountId: string, vaultName: string, uploadId: string)

  /** The HTTP method each blocking operation passes to the shared request call. */
  function MethodOf(op: Operation): HttpMethod {
    match op
    case AbortMultipartUpload(_, _, _) => HttpDelete
    case AbortVaultLock(_, _) => HttpDelete
    case AddTagsToVault(_, _) => HttpPost
    case CompleteMultipartUpload(_, _, _) => HttpPost
    case CompleteVaultLock(_, _, _) => HttpPost
    case CreateVault(_, _) => HttpPut
    case DeleteArchive(_, _, _) => HttpDelete
    case DeleteVault(_, _) => HttpDelete
    case DeleteVaultAccessPolicy(_, _) => HttpDelete
    case DeleteVaultNotifications(_, _) => HttpDelete
    case DescribeJob(_, _, _) => HttpGet
    case DescribeVault(_, _) => HttpGet
    case GetDataRetrievalPolicy(_) => HttpGet
    case GetJobOutput(_, _, _) => HttpGet
    case GetVaultAccessPolicy(_, _) => HttpGet
    case GetVaultLock(_, _) => HttpGet
    case GetVaultNotifications(_, _) => HttpGet
    case InitiateJob(_, _) => HttpPost
    case InitiateMultipartUpload(_, _) => HttpPost
    case InitiateVaultLock(_, _) => HttpPost
    case ListJobs(_, _) => HttpGet
    case ListMultipartUploads(_, _) => HttpGet
    case ListParts(_, _, _) => HttpGet
    case ListTagsForVault(_, _) => HttpGet
    case ListVaults(_) => HttpGet
    case RemoveTagsFromVault(_, _) => HttpPost
    case SetDataRetrievalPolicy(_) => HttpPut
    case SetVaultAccessPolicy(_, _) => HttpPut
    case SetVaultNotifications(_, _) => HttpPut
    case UploadArchive(_, _) => HttpPost
    case UploadMultipartPart(_, _, _) => HttpPut
  }

  /** The URI each blocking operation streams together: the base URI, "/", the account id, then the
      operation's literal segments and path parameters. */
  function Uri(base: string, op: Operation): string {
    match op
    case AbortMultipartUpload(a, v, u) => base + "/" + a + "/vaults/" + v + "/multipart-uploads/" + u
    case AbortVaultLock(a, v) => base + "/" + a + "/vaults/" + v + "/lock-policy"
    case AddTagsToVault(a, v) => base + "/" + a + "/vaults/" + v + "/tags?operation=add"
    case CompleteMultipartUpload(a, v, u) => base + "/" + a + "/vaults/" + v + "/multipart-uploads/" + u
    case CompleteVaultLock(a, v, l) => base + "/" + a + "/vaults/" + v + "/lock-policy/" + l
    case CreateVault(a, v) => base + "/" + a + "/vaults/" + v
    case DeleteArchive(a, v, x) => base + "/" + a + "/vaults/" + v + "/archives/" + x
    case DeleteVault(a, v) => base + "/" + a + "/vaults/" + v
    case DeleteVaultAccessPolicy(a, v) => base + "/" + a + "/vaults/" + v + "/access-policy"
    case DeleteVaultNotifications(a, v) => base + "/" + a + "/vaults/" + v + "/notification-configuration"
    case DescribeJob(a, v, j) => base + "/" + a + "/vaults/" + v + "/jobs/" + j
    case DescribeVault(a, v) => base + "/" + a + "/vaults/" + v
    case GetDataRetrievalPolicy(a) => base + "/" + a + "/policies/data-retrieval"
    case GetJobOutput(a, v, j) => base + "/" + a + "/vaults/" + v + "/jobs/" + j + "/output"
    case GetVaultAccessPolicy(a, v) => base + "/" + a + "/vaults/" + v + "/access-policy"
    case GetVaultLock(a, v) => base + "/" + a + "/vaults/" + v + "/lock-policy"
    case GetVaultNotifications(a, v) => base + "/" + a + "/vaults/" + v + "/notification-configuration"
    case InitiateJob(a, v) => base + "/" + a + "/vaults/" + v + "/jobs"
    case InitiateMultipartUpload(a, v) => base + "/" + a + "/vaults/" + v + "/multipart-uploads"
    case InitiateVaultLock(a, v) => base + "/" + a + "/vaults/" + v + "/lock-policy"
    case ListJobs(a, v) => base + "/" + a + "/vaults/" + v + "/jobs"
    case ListMultipartUploads(a, v) => base + "/" + a + "/vaults/" + v + "/multipart-uploads"
    case ListParts(a, v, u) => base + "/" + a + "/vaults/" + v + "/multipart-uploads/" + u
    case ListTagsForVault(a, v) => base + "/" + a + "/vaults/" + v + "/tags"
    case ListVaults(a) => base + "/" + a + "/vaults"
    case RemoveTagsFromVault(a, v) => base + "/" + a + "/vaults/" + v + "/tags?operation=remove"
    case SetDataRetrievalPolicy(a) => base + "/" + a + "/policies/data-retrieval"
    case SetVaultAccessPolicy(a, v) => base + "/" + a + "/vaults/" + v + "/access-policy"
    case SetVaultNotifications(a, v) => base + "/" + a + "/vaults/" + v + "/notification-configuration"
    case UploadArchive(a, v) => base + "/" + a + "/vaults/" + v + "/archives"
    case UploadMultipartPart(a, v, u) => base + "/" + a + "/vaults/" + v + "/multipart-uploads/" + u
  }

  /** CreateVault, DeleteVault and DescribeVault address the same resource and differ only in method. */
  lemma VaultVerbsShareUri(base: string, acct: string, vault: string)
    ensures Uri(base, CreateVault(acct, vault)) == base + "/" + acct + "/vaults/" + vault
    ensures Uri(base, DeleteVault(acct, vault)) == Uri(base, CreateVault(acct, vault))
    ensures Uri(base, DescribeVault(acct, vault)) == Uri(base, CreateVault(acct, vault))
    ensures MethodOf(CreateVault(acct, vault)) == HttpPut
    ensures MethodOf(DeleteVault(acct, vault)) == HttpDelete
    ensures MethodOf(DescribeVault(acct, vault)) == HttpGet
  {
  }

  /** Adding and removing tags share a method and differ only in the query suffix. */
  lemma TagEditsDifferInSuffix(base: string, acct: string, vault: string)
    ensures Uri(base, AddTagsToVault(acct, vault)) == base + "/" + acct + "/vaults/" + vault + "/tags?operation=add"
    ensures Uri(base, RemoveTagsFromVault(acct, vault)) == base + "/" + acct + "/vaults/" + vault + "/tags?operation=remove"
    ensures MethodOf(AddTagsToVault(acct, vault)) == MethodOf(RemoveTagsFromVault(acct, vault)) == HttpPost
  {
  }

  /** The account-level operations carry no vault segment. */
  lemma AccountLevelUris(base: string, acct: string)
    ensures Uri(base, GetDataRetrievalPolicy(acct)) == base + "/" + acct + "/policies/data-retrieval"
    ensures Uri(base, SetDataRetrievalPolicy(acct)) == Uri(base, GetDataRetrievalPolicy(acct))
    ensures MethodOf(GetDataRetrievalPolicy(acct)) == HttpGet && MethodOf(SetDataRetrievalPolicy(acct)) == HttpPut
    ensures Uri(base, ListVaults(acct)) == base + "/" + acct + "/vaults" && MethodOf(ListVaults(acct)) == HttpGet
  {
  }

  /** A request: the operation (with its path parameters) and everything else it serialises,
      which the shared request call consumes and this model does not inspect. */
  datatype Request = Request(operation: Operation, payload: Json.JsonValue)

  /** A classified service error, passed through from the shared request call unchanged. */
  datatype GlacierError = GlacierError(code: string, message: string, retryable: bool)

  /** The parsed body and headers of a successful JSON response. */
  datatype JsonResponse = JsonResponse(payload: Json.JsonValue, headers: map<string, string>)

  /** The unparsed body and headers of a successful streamed response. */
  datatype StreamResponse = StreamResponse(body: seq<bv8>, headers: map<string, string>)

  /** What a typed outcome holds on success: `NoResult`, a result built from a JSON response, or
      (for GetJobOutput only) a result built from the streamed response. */
  datatype TypedResult = NoResult | FromJson(response: JsonResponse) | FromStream(stream: StreamResponse)

  /** The shared request calls `MakeRequest` and `MakeRequestWithUnparsedResponse`: signing, sending,
      retrying and error classification all happen behind them. */
  datatype Transport = Transport(
    makeRequest: (string, Request, HttpMethod) -> Outcome<JsonResponse, GlacierError>,
    makeStreamRequest: (string, Request, HttpMethod) -> Outcome<StreamResponse, GlacierError>)

  datatype Client = Client(baseUri: string, transport: Transport)

  /** `init` (corrected): the client keeps the shared request calls and the base URI. The URI starts
      with the scheme prefix and names a host whenever an override or a regional endpoint exists. */
  function Init(config: ClientConfiguration, helpers: EndpointHelpers, transport: Transport): (c: Client)
    ensures c.transport == transport
    ensures |SchemePrefix(config, helpers)| <= |c.baseUri| && c.baseUri[..|SchemePrefix(config, helpers)|] == SchemePrefix(config, helpers)
    ensures config.endpointOverride != "" || helpers.forRegion(config.region) != "" ==>
      |c.baseUri| > |SchemePrefix(config, helpers)|
  {
    Client(BaseUri(config, helpers), transport)
  }

  /** Operations whose typed outcome carries `NoResult` on success. */
  predicate ReturnsNoResult(op: Operation) {
    op.AbortMultipartUpload? || op.AbortVaultLock? || op.AddTagsToVault? || op.CompleteVaultLock? ||
    op.DeleteArchive? || op.DeleteVault? || op.DeleteVaultAccessPolicy? || op.DeleteVaultNotifications? ||
    op.RemoveTagsFromVault? || op.SetDataRetrievalPolicy? || op.SetVaultAccessPolicy? || op.SetVaultNotifications?
  }

  /** The conversion in every JSON-returning blocking method: success maps to the typed result (or
      `NoResult`), failure hands the same error on and builds no result. */
  function ConvertOutcome(op: Operation, raw: Outcome<JsonResponse, GlacierError>): (r: Outcome<TypedResult, GlacierError>)
    ensures r.IsSuccess() <==> raw.IsSuccess()
    ensures raw.Failure? ==> r.error == raw.error
    ensures r.Success? && ReturnsNoResult(op) ==> r.result == NoResult
    ensures r.Success? && !ReturnsNoResult(op) ==> r.result == FromJson(raw.result)
  {
    match raw
    case Success(response) => if ReturnsNoResult(op) then Success(NoResult) else Success(FromJson(response))
    case Failure(e) => Failure(e)
  }

  /** The payload of a successful call never affects a no-result operation's outcome. */
  lemma NoResultIgnoresPayload(op: Operation, a: JsonResponse, b: JsonResponse)
    requires ReturnsNoResult(op)
    ensures ConvertOutcome(op, Success(a)) == ConvertOutcome(op, Success(b)) == Success(NoResult)
  {
  }

  /** The blocking call of any operation: build the URI, make the shared request with the
      operation's method, and convert its outcome. */
  function Call(client: Client, req: Request): (r: Outcome<TypedResult, GlacierError>)
    ensures req.operation.GetJobOutput? ==>
      var raw := client.transport.makeStreamRequest(Uri(client.baseUri, req.operation), req, HttpGet);
      (r.IsSuccess() <==> raw.IsSuccess()) &&
      (raw.Failure? ==> r.error == raw.error) &&
      (raw.Success? ==> r.result == FromStream(raw.result))
    ensures !req.operation.GetJobOutput? ==>
      var raw := client.transport.makeRequest(Uri(client.baseUri, req.operation), req, MethodOf(req.operation));
      (r.IsSuccess() <==> raw.IsSuccess()) &&
      (raw.Failure? ==> r.error == raw.error) &&
      (r.Success? ==> r.result == if ReturnsNoResult(req.operation) then NoResult else FromJson(raw.result))
  {
    var uri := Uri(client.baseUri, req.operation);
    if req.operation.GetJobOutput? then
      match client.transport.makeStreamRequest(uri, req, MethodOf(req.operation))
      case Success(stream) => Success(FromStream(stream))
      case Failure(e) => Failure(e)
    else
      ConvertOutcome(req.operation, client.transport.makeRequest(uri, req, MethodOf(req.operation)))
  }

  /** The optional context the caller hands to the async variant and gets back in its handler. */
  datatype CallerContext = CallerContext(uuid: string)

  /** One invocation of a response-received handler. */
  datatype HandlerInvocation = HandlerInvocation(
    request: Request,
    outcome: Outcome<TypedResult, GlacierError>,
    context: Option<CallerContext>)

  /** The `*AsyncHelper` run on the executor: the handler is invoked exactly once, with the same
      request, the outcome of the blocking call on it, and the caller's context. */
  method AsyncHelper(client: Client, req: Request, context: Option<CallerContext>) returns (invocations: seq<HandlerInvocation>)
    ensures |invocations| == 1
    ensures invocations[0].request == req && invocations[0].context == context
    ensures invocations[0].outcome == Call(client, req)
  {
    var outcome := Call(client, req);
    invocations := [HandlerInvocation(req, outcome, context)];
  }
}
