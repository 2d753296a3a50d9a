# A Dafny model of six aws-sdk-cpp client and model files

This project models a slice of the AWS SDK for C++ and proves properties of the model:

- **Glacier client** (`GlacierClient.cpp`). `init` chooses the base URI from the client configuration.
  Each of the 31 blocking operations builds its URI from a fixed template and the request's path
  parameters, and makes the shared request call with a fixed HTTP method. It then converts the call's
  outcome into the operation's typed outcome. Each `*AsyncHelper` calls the blocking operation and
  hands the result to the caller's handler.
- **SimpleDB `Item`** (`Item.cpp`). It is parsed from an XML element and written back out as
  query-string entries, either under a location or under a location, an index and a location value.
- **DeviceFarm `OfferingTypeMapper`** (`OfferingType.cpp`). It maps names to enum values and back.
  Unknown names go through the process-wide overflow registry.
- **AutoScaling `DetachInstancesResult`** (`DetachInstancesResult.cpp`). It is assigned from a
  response document.
- **Route53 `ListTrafficPolicyVersionsRequest`** (`ListTrafficPolicyVersionsRequest.cpp`). It has an
  empty payload and adds its set fields as query-string parameters.
- **DirectConnect `RouteFilterPrefix`** (`RouteFilterPrefix.cpp`). It is read from and written to a
  JSON object.

Presence flags (`m_xHasBeenSet`) become `Option` fields: a field is `None` exactly when its flag is
false. XML elements are an immutable tree (`Xml.XmlNode`). `Xml.FirstChild` and `Xml.NextNamed` (the
source's `FirstChild` and `NextNode`) are index walks over the children. `Xml.Named` is the reference definition of "every child with this name, in
document order". JSON values are a small datatype (`Json.JsonValue`).

Code the six files call but do not define becomes function-typed parameters, about which nothing is
assumed:

- the endpoint table and scheme names;
- `HashingUtils::HashString`;
- `StringUtils::Trim` and `URLEncode`;
- `Attribute::OutputToStream`;
- the shared `MakeRequest` / `MakeRequestWithUnparsedResponse` calls.

The Glacier URI templates get a partner, `GlacierRouting`. It splits a URI at '/' after the base
and recovers the operation and its path parameters from the method and the segments. The round trip
`Dispatch(base, MethodOf(op), Uri(base, op)) == Some(op)` holds for every operation whose path
parameters contain no '/'. It follows that the templates and methods never confuse two operations.

Files: `wrappers.dfy` (Option, Outcome), `xml.dfy`, `json.dfy`, `glacier.dfy`, `glacier_routing.dfy`,
`simpledb_item.dfy`, `offering_type.dfy`, `detach_instances_result.dfy`,
`list_traffic_policy_versions_request.dfy`, `route_filter_prefix.dfy`.

## Model

| member | source | states |
|---|---|---|
| Glacier.BaseUriAsWritten | aws-cpp-sdk-glacier/source/GlacierClient.cpp:107-122 | `init` as written: the scheme name and "://", then the regional endpoint only when both the endpoint override and the authentication region are empty, and the override (possibly empty) otherwise |
| Glacier.BaseUri | aws-cpp-sdk-glacier/source/GlacierClient.cpp:107-122 | `init` as evidently intended: the scheme name and "://", then the override when one is given and the regional endpoint otherwise |
| Glacier.Init | aws-cpp-sdk-glacier/source/GlacierClient.cpp:107-122 | The client keeps the given request calls; its base URI starts with the scheme name and "://" and names a non-empty host whenever an override or a regional endpoint exists (true only of the corrected base URI) |
| Glacier.AsWrittenDiffersOnlyWithBareAuthRegion | aws-cpp-sdk-glacier/source/GlacierClient.cpp:112-119 | The written and the intended base URI differ if and only if the override is empty, the authentication region is set and the regional endpoint is non-empty |
| Glacier.AuthRegionWithoutOverrideLosesHost | aws-cpp-sdk-glacier/source/GlacierClient.cpp:112-119 | Concrete witness: with authentication region "us-west-2" and no override, the written `init` yields a bare "scheme://" with no host, while the intended one does not |
| Glacier.OverrideIgnoresRegion | aws-cpp-sdk-glacier/source/GlacierClient.cpp:112-119 | With an endpoint override, the region and the endpoint table do not affect the base URI (both versions) |
| Glacier.VaultVerbsShareUri | aws-cpp-sdk-glacier/source/GlacierClient.cpp:301-318 | CreateVault (PUT), DeleteVault (DELETE, lines 371-388) and DescribeVault (GET, lines 511-528) address the same `base/acct/vaults/vault` URI and differ only in method |
| Glacier.TagEditsDifferInSuffix | aws-cpp-sdk-glacier/source/GlacierClient.cpp:194-212 | AddTagsToVault and RemoveTagsFromVault (lines 999-1017) are both POST and differ only in the `?operation=add` / `?operation=remove` suffix |
| Glacier.AccountLevelUris | aws-cpp-sdk-glacier/source/GlacierClient.cpp:545-561 | The data-retrieval policy operations (GET here, PUT at lines 1034-1050) share `base/acct/policies/data-retrieval`; ListVaults (lines 966-982) is GET on `base/acct/vaults` |
| Glacier.ConvertOutcome | aws-cpp-sdk-glacier/source/GlacierClient.cpp:123-142 | A typed outcome succeeds exactly when the shared call succeeds. A failure passes the same error on. A success carries `NoResult` for the twelve no-result operations and the typed result built from the JSON response otherwise (as in CreateVault, lines 301-318) |
| Glacier.NoResultIgnoresPayload | aws-cpp-sdk-glacier/source/GlacierClient.cpp:132-135 | For a no-result operation, every successful response yields the same `NoResult` outcome, whatever its payload |
| Glacier.Call | aws-cpp-sdk-glacier/source/GlacierClient.cpp:578-598 | GetJobOutput alone goes through the unparsed (streamed) request with GET and keeps the stream on success. Every other operation makes the JSON request with its own method on its own URI and converts the outcome as above |
| Glacier.AsyncHelper | aws-cpp-sdk-glacier/source/GlacierClient.cpp:154-157 | The handler is invoked exactly once, with the same request, the caller's context, and the outcome of the blocking call on that request |
| GlacierRouting.AbortMultipartUploadTemplate | aws-cpp-sdk-glacier/source/GlacierClient.cpp:123-142 | The URI is the base URI, "/", then account id / `vaults` / vault name / `multipart-uploads` / upload id joined by "/"; DELETE with those segments routes back to AbortMultipartUpload with the same path parameters |
| GlacierRouting.AbortVaultLockTemplate | aws-cpp-sdk-glacier/source/GlacierClient.cpp:159-177 | The URI is the base URI, "/", then account id / `vaults` / vault name / `lock-policy` joined by "/"; DELETE with those segments routes back to AbortVaultLock with the same path parameters |
| GlacierRouting.AddTagsToVaultTemplate | aws-cpp-sdk-glacier/source/GlacierClient.cpp:194-212 | The URI is the base URI, "/", then account id / `vaults` / vault name / `tags?operation=add` joined by "/"; POST with those segments routes back to AddTagsToVault with the same path parameters |
| GlacierRouting.CompleteMultipartUploadTemplate | aws-cpp-sdk-glacier/source/GlacierClient.cpp:229-248 | The URI is the base URI, "/", then account id / `vaults` / vault name / `multipart-uploads` / upload id joined by "/"; POST with those segments routes back to CompleteMultipartUpload with the same path parameters |
| GlacierRouting.CompleteVaultLockTemplate | aws-cpp-sdk-glacier/source/GlacierClient.cpp:265-284 | The URI is the base URI, "/", then account id / `vaults` / vault name / `lock-policy` / lock id joined by "/"; POST with those segments routes back to CompleteVaultLock with the same path parameters |
| GlacierRouting.CreateVaultTemplate | aws-cpp-sdk-glacier/source/GlacierClient.cpp:301-318 | The URI is the base URI, "/", then account id / `vaults` / vault name joined by "/"; PUT with those segments routes back to CreateVault with the same path parameters |
| GlacierRouting.DeleteArchiveTemplate | aws-cpp-sdk-glacier/source/GlacierClient.cpp:335-354 | The URI is the base URI, "/", then account id / `vaults` / vault name / `archives` / archive id joined by "/"; DELETE with those segments routes back to DeleteArchive with the same path parameters |
| GlacierRouting.DeleteVaultTemplate | aws-cpp-sdk-glacier/source/GlacierClient.cpp:371-388 | The URI is the base URI, "/", then account id / `vaults` / vault name joined by "/"; DELETE with those segments routes back to DeleteVault with the same path parameters |
| GlacierRouting.DeleteVaultAccessPolicyTemplate | aws-cpp-sdk-glacier/source/GlacierClient.cpp:405-423 | The URI is the base URI, "/", then account id / `vaults` / vault name / `access-policy` joined by "/"; DELETE with those segments routes back to DeleteVaultAccessPolicy with the same path parameters |
| GlacierRouting.DeleteVaultNotificationsTemplate | aws-cpp-sdk-glacier/source/GlacierClient.cpp:440-458 | The URI is the base URI, "/", then account id / `vaults` / vault name / `notification-configuration` joined by "/"; DELETE with those segments routes back to DeleteVaultNotifications with the same path parameters |
| GlacierRouting.DescribeJobTemplate | aws-cpp-sdk-glacier/source/GlacierClient.cpp:475-494 | The URI is the base URI, "/", then account id / `vaults` / vault name / `jobs` / job id joined by "/"; GET with those segments routes back to DescribeJob with the same path parameters |
| GlacierRouting.DescribeVaultTemplate | aws-cpp-sdk-glacier/source/GlacierClient.cpp:511-528 | The URI is the base URI, "/", then account id / `vaults` / vault name joined by "/"; GET with those segments routes back to DescribeVault with the same path parameters |
| GlacierRouting.GetDataRetrievalPolicyTemplate | aws-cpp-sdk-glacier/source/GlacierClient.cpp:545-561 | The URI is the base URI, "/", then account id / `policies` / `data-retrieval` joined by "/"; GET with those segments routes back to GetDataRetrievalPolicy with the same path parameters |
| GlacierRouting.GetJobOutputTemplate | aws-cpp-sdk-glacier/source/GlacierClient.cpp:578-598 | The URI is the base URI, "/", then account id / `vaults` / vault name / `jobs` / job id / `output` joined by "/"; GET with those segments routes back to GetJobOutput with the same path parameters |
| GlacierRouting.GetVaultAccessPolicyTemplate | aws-cpp-sdk-glacier/source/GlacierClient.cpp:615-633 | The URI is the base URI, "/", then account id / `vaults` / vault name / `access-policy` joined by "/"; GET with those segments routes back to GetVaultAccessPolicy with the same path parameters |
| GlacierRouting.GetVaultLockTemplate | aws-cpp-sdk-glacier/source/GlacierClient.cpp:650-668 | The URI is the base URI, "/", then account id / `vaults` / vault name / `lock-policy` joined by "/"; GET with those segments routes back to GetVaultLock with the same path parameters |
| GlacierRouting.GetVaultNotificationsTemplate | aws-cpp-sdk-glacier/source/GlacierClient.cpp:685-703 | The URI is the base URI, "/", then account id / `vaults` / vault name / `notification-configuration` joined by "/"; GET with those segments routes back to GetVaultNotifications with the same path parameters |
| GlacierRouting.InitiateJobTemplate | aws-cpp-sdk-glacier/source/GlacierClient.cpp:720-738 | The URI is the base URI, "/", then account id / `vaults` / vault name / `jobs` joined by "/"; POST with those segments routes back to InitiateJob with the same path parameters |
| GlacierRouting.InitiateMultipartUploadTemplate | aws-cpp-sdk-glacier/source/GlacierClient.cpp:755-773 | The URI is the base URI, "/", then account id / `vaults` / vault name / `multipart-uploads` joined by "/"; POST with those segments routes back to InitiateMultipartUpload with the same path parameters |
| GlacierRouting.InitiateVaultLockTemplate | aws-cpp-sdk-glacier/source/GlacierClient.cpp:790-808 | The URI is the base URI, "/", then account id / `vaults` / vault name / `lock-policy` joined by "/"; POST with those segments routes back to InitiateVaultLock with the same path parameters |
| GlacierRouting.ListJobsTemplate | aws-cpp-sdk-glacier/source/GlacierClient.cpp:825-843 | The URI is the base URI, "/", then account id / `vaults` / vault name / `jobs` joined by "/"; GET with those segments routes back to ListJobs with the same path parameters |
| GlacierRouting.ListMultipartUploadsTemplate | aws-cpp-sdk-glacier/source/GlacierClient.cpp:860-878 | The URI is the base URI, "/", then account id / `vaults` / vault name / `multipart-uploads` joined by "/"; GET with those segments routes back to ListMultipartUploads with the same path parameters |
| GlacierRouting.ListPartsTemplate | aws-cpp-sdk-glacier/source/GlacierClient.cpp:895-914 | The URI is the base URI, "/", then account id / `vaults` / vault name / `multipart-uploads` / upload id joined by "/"; GET with those segments routes back to ListParts with the same path parameters |
| GlacierRouting.ListTagsForVaultTemplate | aws-cpp-sdk-glacier/source/GlacierClient.cpp:931-949 | The URI is the base URI, "/", then account id / `vaults` / vault name / `tags` joined by "/"; GET with those segments routes back to ListTagsForVault with the same path parameters |
| GlacierRouting.ListVaultsTemplate | aws-cpp-sdk-glacier/source/GlacierClient.cpp:966-982 | The URI is the base URI, "/", then account id / `vaults` joined by "/"; GET with those segments routes back to ListVaults with the same path parameters |
| GlacierRouting.RemoveTagsFromVaultTemplate | aws-cpp-sdk-glacier/source/GlacierClient.cpp:999-1017 | The URI is the base URI, "/", then account id / `vaults` / vault name / `tags?operation=remove` joined by "/"; POST with those segments routes back to RemoveTagsFromVault with the same path parameters |
| GlacierRouting.SetDataRetrievalPolicyTemplate | aws-cpp-sdk-glacier/source/GlacierClient.cpp:1034-1050 | The URI is the base URI, "/", then account id / `policies` / `data-retrieval` joined by "/"; PUT with those segments routes back to SetDataRetrievalPolicy with the same path parameters |
| GlacierRouting.SetVaultAccessPolicyTemplate | aws-cpp-sdk-glacier/source/GlacierClient.cpp:1067-1085 | The URI is the base URI, "/", then account id / `vaults` / vault name / `access-policy` joined by "/"; PUT with those segments routes back to SetVaultAccessPolicy with the same path parameters |
| GlacierRouting.SetVaultNotificationsTemplate | aws-cpp-sdk-glacier/source/GlacierClient.cpp:1102-1120 | The URI is the base URI, "/", then account id / `vaults` / vault name / `notification-configuration` joined by "/"; PUT with those segments routes back to SetVaultNotifications with the same path parameters |
| GlacierRouting.UploadArchiveTemplate | aws-cpp-sdk-glacier/source/GlacierClient.cpp:1137-1155 | The URI is the base URI, "/", then account id / `vaults` / vault name / `archives` joined by "/"; POST with those segments routes back to UploadArchive with the same path parameters |
| GlacierRouting.UploadMultipartPartTemplate | aws-cpp-sdk-glacier/source/GlacierClient.cpp:1172-1191 | The URI is the base URI, "/", then account id / `vaults` / vault name / `multipart-uploads` / upload id joined by "/"; PUT with those segments routes back to UploadMultipartPart with the same path parameters |
| GlacierRouting.TemplateSegments | aws-cpp-sdk-glacier/source/GlacierClient.cpp:123-1191 | For every operation: the URI is the base, "/" and its segments joined by "/", and its method and segments route back to it |
| GlacierRouting.DispatchRoundTrip | aws-cpp-sdk-glacier/source/GlacierClient.cpp:123-1191 | Round trip: when no path parameter contains '/', parsing the URI an operation is sent to, together with its method, recovers exactly that operation and its path parameters |
| GlacierRouting.RoutingUnambiguous | aws-cpp-sdk-glacier/source/GlacierClient.cpp:123-1191 | Two operations with '/'-free path parameters sent with the same method to the same URI are the same operation with the same parameters |
| SimpleDbModel.NewItem | aws-cpp-sdk-sdb/source/model/Item.cpp:26-31 | A new item has all three presence flags false |
| SimpleDbModel.Assign | aws-cpp-sdk-sdb/source/model/Item.cpp:41-74 | A null node changes nothing. A scalar is replaced (trimmed) and flagged exactly when its child exists and is otherwise kept. The "Attribute" children are appended, in document order, to the attributes already held, and the list is flagged exactly when there is at least one |
| SimpleDbModel.AttributesFlagIffChild | aws-cpp-sdk-sdb/source/model/Item.cpp:59-70 | Parsing into a new item sets the attributes flag if and only if the element has an "Attribute" child |
| Xml.FirstChild | aws-cpp-sdk-sdb/source/model/Item.cpp:47-58 | `FirstChild(name)` is null exactly when no child has that name. Otherwise it is the earliest such child: no child before it has the name |
| Xml.WalkSiblings | aws-cpp-sdk-sdb/source/model/Item.cpp:59-68 | The FirstChild/NextNode loop visits exactly the children with the given name, in document order (proved with loop invariants against the reference filter `Xml.Named`) |
| SimpleDbModel.Decimal | aws-cpp-sdk-sdb/source/model/Item.cpp:113-114 | The attribute index is streamed as unsigned decimal digits with no leading zero |
| SimpleDbModel.DecimalDenotes | aws-cpp-sdk-sdb/source/model/Item.cpp:113-114 | The digits streamed for the index denote that index |
| SimpleDbModel.AttributePrefixesDistinct | aws-cpp-sdk-sdb/source/model/Item.cpp:110-116 | Attributes at different positions are written under different prefixes `location.Attribute.<n>` |
| SimpleDbModel.AttributeFragments | aws-cpp-sdk-sdb/source/model/Item.cpp:109-116 | The k-th attribute is written under `location.Attribute.<start+k>`, in list order |
| SimpleDbModel.Fragments | aws-cpp-sdk-sdb/source/model/Item.cpp:98-118 | `OutputToStream(location)` writes one entry per flagged scalar plus one per attribute, in order: Name first, then AlternateNameEncoding, both under `location`, then the attributes numbered from 1 |
| SimpleDbModel.RenderAttributeFragments | aws-cpp-sdk-sdb/source/model/Item.cpp:108-117 | The attribute writes produce the text of the attribute loop: each attribute's own serialiser, called with `location.Attribute.<n>` for n = 1, 2, … |
| SimpleDbModel.FragmentsText | aws-cpp-sdk-sdb/source/model/Item.cpp:98-118 | The writes produce `location.Name=<URL-encoded name>&` when the name is set, then `location.AlternateNameEncoding=<URL-encoded encoding>&` when that is set, then the attribute loop's text |
| SimpleDbModel.OutputToStream | aws-cpp-sdk-sdb/source/model/Item.cpp:98-118 | The exact text streamed: the Name entry if set, the AlternateNameEncoding entry if set, then the attributes' serialisers under `location.Attribute.1`, `location.Attribute.2`, … |
| SimpleDbModel.IndexedAttributesOut | aws-cpp-sdk-sdb/source/model/Item.cpp:86-95 | The indexed attribute loop, with its running index from 1 and each prefix streamed from location, index and location value, produces the attribute-loop text under the joined location |
| SimpleDbModel.OutputToStreamIndexed | aws-cpp-sdk-sdb/source/model/Item.cpp:76-96 | The indexed variant streams location, index and location value separately before every key. It writes exactly the text the plain variant writes under the location `location + index + locationValue` |
| SimpleDbModel.ReassembleAttributeWrites | aws-cpp-sdk-sdb/source/model/Item.cpp:109-116 | Reading the attribute writes back appends the attributes, in order, to whatever list is held, and touches no other field |
| SimpleDbModel.SerialisedFieldsRoundTrip | aws-cpp-sdk-sdb/source/model/Item.cpp:98-118 | Round trip: reading every write of `OutputToStream` back into a new item recovers the item exactly (each flag and each value), unless its attribute list is flagged but empty |
| DeviceFarmModel.RetrieveOverflow | aws-cpp-sdk-devicefarm/source/model/OfferingType.cpp:58-62 | The overflow registry returns the name stored under a code, or "" when none is stored |
| DeviceFarmModel.GetOfferingTypeForName | aws-cpp-sdk-devicefarm/source/model/OfferingType.cpp:34-49 | "RECURRING" (by hash) maps to RECURRING and leaves the registry alone. Any other name is stored under its hash and returned as the value equal to the hash when the registry exists, and NOT_SET otherwise |
| DeviceFarmModel.GetNameForOfferingType | aws-cpp-sdk-devicefarm/source/model/OfferingType.cpp:51-66 | RECURRING maps to "RECURRING". Any other value is looked up in the registry when it exists, and gives "" otherwise |
| DeviceFarmModel.RegistryOnlyGrows | aws-cpp-sdk-devicefarm/source/model/OfferingType.cpp:41-46 | A lookup never creates or removes the registry, never drops a key, and changes no entry except the one for the name's own hash |
| DeviceFarmModel.NameRoundTrip | aws-cpp-sdk-devicefarm/source/model/OfferingType.cpp:34-66 | Round trip: with a registry, a name whose hash is neither the hash of "RECURRING" nor the value of RECURRING maps back to itself |
| DeviceFarmModel.HashEqualToRecurringValueBreaksRoundTrip | aws-cpp-sdk-devicefarm/source/model/OfferingType.cpp:53-56 | A name whose hash equals the numeric value of RECURRING comes back as "RECURRING" (or "" without a registry), so the second condition above is needed |
| DeviceFarmModel.KnownNameRoundTrip | aws-cpp-sdk-devicefarm/source/model/OfferingType.cpp:34-56 | "RECURRING" maps to RECURRING and back without touching the registry |
| DeviceFarmModel.ResolveAll | aws-cpp-sdk-devicefarm/source/model/OfferingType.cpp:41-46 | Any number of lookups leave the registry present exactly when it was present |
| DeviceFarmModel.ResolveAllKeepsEntry | aws-cpp-sdk-devicefarm/source/model/OfferingType.cpp:41-46 | Later lookups of names with other hashes keep an earlier registry entry unchanged |
| DeviceFarmModel.ResolveAllRoundTrip | aws-cpp-sdk-devicefarm/source/model/OfferingType.cpp:34-66 | After a sequence of lookups, each name's value still maps back to that name, as long as no later name shares its hash |
| AutoScalingModel.NewResult | aws-cpp-sdk-autoscaling/source/model/DetachInstancesResult.cpp:27-29 | A new result has no activities and unassigned metadata |
| AutoScalingModel.Assign | aws-cpp-sdk-autoscaling/source/model/DetachInstancesResult.cpp:36-57 | Activities come only from the "Activities" children of the root's "DetachInstancesResult" child. They are appended in document order to those already held, and nothing is added when that child is missing. The metadata is always reassigned from the root's "ResponseMetadata" child, null or not |
| AutoScalingModel.AssignAppendsRatherThanReplaces | aws-cpp-sdk-autoscaling/source/model/DetachInstancesResult.cpp:36-57 | Assigning the same document twice adds its activities twice, while the metadata ends up the same |
| AutoScalingModel.FromDocumentActivities | aws-cpp-sdk-autoscaling/source/model/DetachInstancesResult.cpp:31-34 | Constructing from a document yields exactly the "Activities" children of the result node, and none when it is absent |
| Route53Model.NewRequest | aws-cpp-sdk-route53/source/model/ListTrafficPolicyVersionsRequest.cpp:27-32 | A new request has all three presence flags false |
| Route53Model.SerializePayload | aws-cpp-sdk-route53/source/model/ListTrafficPolicyVersionsRequest.cpp:34-37 | The payload is empty whatever is set |
| Route53Model.AddQueryStringParameters | aws-cpp-sdk-route53/source/model/ListTrafficPolicyVersionsRequest.cpp:39-56 | The path is unchanged. The query is extended by exactly the set fields, in order: the marker under "trafficpolicyversion", then the page size under "maxitems" (each through the cleared stream buffer) |
| Route53Model.ParametersReadBack | aws-cpp-sdk-route53/source/model/ListTrafficPolicyVersionsRequest.cpp:41-53 | Each contributed key reads back as its field, absent when unset. The id is never a query parameter. One entry is added per set field |
| Route53Model.QueryRoundTrip | aws-cpp-sdk-route53/source/model/ListTrafficPolicyVersionsRequest.cpp:39-56 | Round trip: after the parameters are added to a query that does not yet name them, looking up "trafficpolicyversion" and "maxitems" gives back the marker and the page size as set |
| Route53Model.NewRequestAddsNothing | aws-cpp-sdk-route53/source/model/ListTrafficPolicyVersionsRequest.cpp:27-32 | A new request leaves the URI unchanged |
| DirectConnectModel.NewPrefix | aws-cpp-sdk-directconnect/source/model/RouteFilterPrefix.cpp:24-27 | A new prefix has the flag false |
| DirectConnectModel.Assign | aws-cpp-sdk-directconnect/source/model/RouteFilterPrefix.cpp:35-45 | The field is replaced by the "cidr" string and flagged exactly when the key exists; otherwise the prefix is unchanged |
| DirectConnectModel.FromJson | aws-cpp-sdk-directconnect/source/model/RouteFilterPrefix.cpp:29-33 | A prefix built from JSON is flagged exactly when the key "cidr" exists |
| DirectConnectModel.Jsonize | aws-cpp-sdk-directconnect/source/model/RouteFilterPrefix.cpp:47-58 | The output is an object. It holds "cidr" exactly when the flag is set, with the field's value, and is the empty object otherwise |
| DirectConnectModel.JsonRoundTrip | aws-cpp-sdk-directconnect/source/model/RouteFilterPrefix.cpp:35-58 | Round trip: reading back what `Jsonize` wrote gives the same flag and value |
| DirectConnectModel.ObjectRoundTrip | aws-cpp-sdk-directconnect/source/model/RouteFilterPrefix.cpp:35-58 | Round trip the other way: writing out a prefix read from an object whose "cidr" is a string (or absent) gives exactly that key and value and nothing else |
| DirectConnectModel.AssignIdempotent | aws-cpp-sdk-directconnect/source/model/RouteFilterPrefix.cpp:35-45 | Assigning the same JSON twice is the same as assigning it once |

## Left out

- The three `GlacierClient` constructors (lines 72-101) and the destructor. They only set up
  credentials, the signer, the error marshaller and the executor, and then call `init`.
- `*Callable` and `*Async`: scheduling on `std::async` or the executor is concurrency, which is not
  modelled. `AsyncHelper` models what runs on the executor.
- The internals of `MakeRequest` and `MakeRequestWithUnparsedResponse`: signing, sending, retries and
  error classification live outside these files. They are the `Glacier.Transport` parameter. The
  request body and headers are not inspected (`Request.payload`).
- The typed result classes (`CreateVaultResult` and the others) are not parsed. A successful typed
  outcome carries the JSON response it is built from.
- GetJobOutput's stream ownership (`GetResultWithOwnership`) becomes a value copy of the body bytes.
- The endpoint table, scheme names, string hash, `Trim`, `URLEncode` and `Attribute::OutputToStream`
  are uninterpreted parameters. The SimpleDB `Attribute` and AutoScaling `Activity` /
  `ResponseMetadata` classes are kept as the XML nodes they are built from, because their own
  parsers are not part of this model.
- The output stream is modelled as the sequence of writes (`SimpleDbModel.Fragment`) and their
  concatenation (`SimpleDbModel.Render`). Stream error states are not modelled.
- SimpleDbModel.SerialisedFieldsRoundTrip: reads the writes back by their kind (name, encoding,
  attribute) and not by parsing the rendered text, because URL decoding and the attributes' own
  format are outside this model. The text itself is fixed by `SimpleDbModel.OutputToStream`.
- AutoScalingModel.AssignAppendsRatherThanReplaces: `ResponseMetadata::operator=` is not part of
  this model. Assigning metadata is modelled as keeping the node it was assigned from, so the
  metadata half of this lemma rests on that choice.
- SimpleDbModel.Decimal: `attributesIdx` is an `unsigned` and would wrap after 2^32 attributes.
  The model's index is unbounded.
- DeviceFarmModel.GetOfferingTypeForName: the `OfferingType.h` header is not part of this model.
  The enumerator values NOT_SET = 0 and RECURRING = 1 are taken from the generator's convention.
  `EnumParseOverflowContainer` is not part of this model either: storing overwrites the entry for a
  code, and retrieving returns the stored name or "". Its mutex is not modelled.
- Json.GetString: the `JsonValue` class is not part of this model. Reading a key whose value is not
  a string yields "".
- Route53Model.AddQueryStringParameter: the `URI` class is not part of this model. Query parameters
  are kept as an ordered list of pairs, with no encoding or duplicate handling.
- `RetrieveTapeArchiveResult.h` is context only and is not modelled.

## Findings

| source | as written | input that shows it | evidently intended | confidence | as-written member | corrected member |
|---|---|---|---|---|---|---|
| aws-cpp-sdk-glacier/source/GlacierClient.cpp:112-119 | The regional endpoint is used only when both `endpointOverride` and `authenticationRegion` are empty, so setting only the authentication region streams the empty override as the host | scheme HTTPS, region "us-west-2", no override, authentication region "us-west-2": base URI "https://" with no host | The authentication region affects signing only: use the override when it is given and the regional endpoint otherwise | not executed | Glacier.BaseUriAsWritten, Glacier.AuthRegionWithoutOverrideLosesHost | Glacier.BaseUri, Glacier.Init |

The client in this model is built by `Glacier.Init`, which uses the corrected `Glacier.BaseUri`.
`Glacier.AsWrittenDiffersOnlyWithBareAuthRegion` characterises every configuration on which the two
versions disagree.
