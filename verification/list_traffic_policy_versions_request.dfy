/** Route53 `ListTrafficPolicyVersionsRequest`: an empty payload, and query-string parameters for
    the marker and the page size when they are set. The policy id travels in the URI path, not here. */
module Route53Model {
  import opened Wrappers

  /** Each field is `None` exactly when its "has been set" flag is false. */
  datatype ListTrafficPolicyVersionsRequest = ListTrafficPolicyVersionsRequest(
    id: Option<string>,
    trafficPolicyVersionMarker: Option<string>,
    maxItems: Option<string>)

  /** The constructor: every presence flag false. */
  function NewRequest(): (r: ListTrafficPolicyVersionsRequest)
    ensures r.id.None? && r.trafficPolicyVersionMarker.None? && r.maxItems.None?
  {
    ListTrafficPolicyVersionsRequest(None, None, None)
  }

  /** `SerializePayload`: the request has no body, whatever is set. */
  function SerializePayload(req: ListTrafficPolicyVersionsRequest): (body: string)
    ensures |body| == 0
  {
    ""
  }

  /** The part of `Aws::Http::URI` the request touches: the path and the query parameters in the
      order they were added. */
  datatype Uri = Uri(path: string, query: seq<(string, string)>)

  /** `URI::AddQueryStringParameter`: one more parameter at the end. */
  function AddQueryStringParameter(uri: Uri, key: string, value: string): (r: Uri)
    ensures r.path == uri.path && r.query == uri.query + [(key, value)]
  {
    uri.(query := uri.query + [(key, value)])
  }

  /** The value of the first query parameter called `key`, if any. */
  function QueryValue(query: seq<(string, string)>, key: string): (r: Option<string>)
    ensures r.Some? <==> exists k :: 0 <= k < |query| && query[k].0 == key
  {
    if query == [] then None
    else if query[0].0 == key then Some(query[0].1)
    else QueryValue(query[1..], key)
  }

  /** The parameters a request contributes, in order: the marker under "trafficpolicyversion",
      then the page size under "maxitems", each only when set. */
  function Parameters(req: ListTrafficPolicyVersionsRequest): seq<(string, string)> {
    (if req.trafficPolicyVersionMarker.Some? then [("trafficpolicyversion", req.trafficPolicyVersionMarker.value)] else [])
    + (if req.maxItems.Some? then [("maxitems", req.maxItems.value)] else [])
  }

  /** `AddQueryStringParameters`, with its string-stream buffer: each set field is streamed into the
      buffer, added under its key, and the buffer is then cleared. */
  method AddQueryStringParameters(req: ListTrafficPolicyVersionsRequest, uri: Uri) returns (r: Uri)
    ensures r.path == uri.path
    ensures r.query == uri.query + Parameters(req)
  {
    var ss := "";
    r := uri;
    if req.trafficPolicyVersionMarker.Some? {
      ss := ss + req.trafficPolicyVersionMarker.value;
      assert ss == req.trafficPolicyVersionMarker.value;
      r := AddQueryStringParameter(r, "trafficpolicyversion", ss);
      ss := "";
    }
    if req.maxItems.Some? {
      ss := ss + req.maxItems.value;
      assert ss == req.maxItems.value;
      r := AddQueryStringParameter(r, "maxitems", ss);
      ss := "";
    }
  }

  /** Looking a key up in two query lists one after the other finds it in the first if it is there. */
  lemma {:induction false} QueryValueAppend(q1: seq<(string, string)>, q2: seq<(string, string)>, key: string)
    ensures QueryValue(q1 + q2, key) == if QueryValue(q1, key).Some? then QueryValue(q1, key) else QueryValue(q2, key)
  {
    if q1 != [] {
      assert (q1 + q2)[1..] == q1[1..] + q2;
      QueryValueAppend(q1[1..], q2, key);
    } else {
      assert q1 + q2 == q2;
    }
  }

  /** The contributed parameters hold at most one entry per key, so each reads back as its field;
      the id is never among them. */
  lemma ParametersReadBack(req: ListTrafficPolicyVersionsRequest)
    ensures QueryValue(Parameters(req), "trafficpolicyversion") == req.trafficPolicyVersionMarker
    ensures QueryValue(Parameters(req), "maxitems") == req.maxItems
    ensures QueryValue(Parameters(req), "id") == None
    ensures |Parameters(req)| == (if req.trafficPolicyVersionMarker.Some? then 1 else 0) + (if req.maxItems.Some? then 1 else 0)
  {
    var ps := Parameters(req);
    if req.trafficPolicyVersionMarker.Some? && req.maxItems.Some? {
      assert ps[1..] == [("maxitems", req.maxItems.value)];
    }
  }

  /** Round trip: after the request adds its parameters to a URI whose query does not yet name
      them, reading the query gives back the marker and the page size exactly as set. */
  lemma QueryRoundTrip(req: ListTrafficPolicyVersionsRequest, query: seq<(string, string)>)
    requires QueryValue(query, "trafficpolicyversion") == None && QueryValue(query, "maxitems") == None
    ensures QueryValue(query + Parameters(req), "trafficpolicyversion") == req.trafficPolicyVersionMarker
    ensures QueryValue(query + Parameters(req), "maxitems") == req.maxItems
  {
    ParametersReadBack(req);
    QueryValueAppend(query, Parameters(req), "trafficpolicyversion");
    QueryValueAppend(query, Parameters(req), "maxitems");
  }

  /** A freshly constructed request adds nothing to the URI. */
  method NewRequestAddsNothing(uri: Uri) returns (r: Uri)
    ensures r == uri
  {
    r := AddQueryStringParameters(NewRequest(), uri);
  }
}
