# dssim-ids-controller in Dafny

A model of the core of `dssim-ids-controller`. That is the connector controller through which a
simulation offers data to, and obtains data from, an International Data Spaces
(IDS) Dataspace Connector. Two parts are modelled:

- **The usage-rule mapper** (`usage_rule_mapper.dfy`). It turns an abstract usage policy into the
  JSON-LD `ids:Permission` document that the connector stores as a contract rule. There is one
  document per kind of policy: unrestricted, at most *n* uses, or use within a time window. A
  policy kind it does not implement is an error.
  - The documents are built as JSON trees with their fields in source order.
  - Each one is read back with `ReadPermission`, an independent reader of permission documents.
  - The proofs show that every document decodes, through `PolicyOf`, to exactly the policy it
    was made from.
  - The proofs also show that every document has one action, which expands under the document's
    own `@context` to the IDS `USE` IRI, and that the permission identifiers are fixed per kind.
- **The controller** (`dsc_controller.dfy`).
  - It reads a remote connector's catalogue, negotiates a contract for an offer and fetches the
    agreed artifact, or forwards it to a receiver route that `setHttpDataReceiver` set up. It
    also registers an HTTP endpoint as an artifact, with or without credentials or polling.
  - The remote connector is an oracle (`connector_api.dfy`). Every call appends a `Request` to a
    log, and each response is a fixed but arbitrary function of the log so far. The model
    assumes nothing about what the remote side answers.
  - Each operation `X` has a run function `XRun`. It gives the requests the operation sends after
    a given log, and what it returns. Each method of the `DSCController` class is proved to leave
    exactly that log and return exactly that result.
  - Lemmas about each run then state when it succeeds and what it sends and returns. Examples:
    - a contract request names the offer and its asset, and binds the permission to that asset;
    - a transfer without a route sends nothing;
    - polling ignores the API key;
    - two credentials are refused before any data source is created.

Supporting modules:

- `wrappers.dfy`: `Option` and `Result`. Also the throwing `Array.prototype.map` (`MapAll`), where
  the first failing element decides the error.
- `json.dfy`: JSON documents whose objects keep their fields in insertion order. Also property
  paths, and the JavaScript assignment `o[k] = v` (`SetField`).
- `errors.dfy`: errors the controller throws, reads of missing fields, and errors reported by the
  connector.

`getIdFromURL` and `getSelfRefId` come from `src/util/util.ts`, which is not part of this model.
They are parameters of the controller (`idFromUrl`, `selfRefId`) about which nothing is assumed.

Two facts about the code are worth knowing:

- `mapUsagePolicyRule` does not validate its input (src/util/UsageRuleMapper.ts:74-185). A
  non-positive number of uses, or a start time after the end time, gives a document like any
  other, and the model accepts them too.
- The permission and constraint ids are fixed UUIDs, the same in every document
  (`IdentifiersAreFixed`).

## Model

| member | source | states |
|---|---|---|
| `UsageRuleMapper.MapUsagePolicyRule` | src/util/UsageRuleMapper.ts:31-43 | fails, with the error "Usage policy not implemented by connector controller.", for a policy whose type none of the three guards accepts, and for no other policy the model can express; an absent policy gives the unrestricted document |
| `UsageRuleMapper.UnrestrictedPolicyRule` | src/util/UsageRuleMapper.ts:46-73 | the document reads back as an `ids:Permission` with the fixed id `…cf1cb758…`, the single action `idsc:USE` and no constraint, under the `ids`/`idsc` context |
| `UsageRuleMapper.NumberUsagesRestrictedRule` | src/util/UsageRuleMapper.ts:74-121 | the document reads back as a permission with the fixed id `…4ad88c11…`, action `idsc:USE`, and one constraint `idsc:COUNT idsc:LTEQ usageTimes`, typed by the full IRI `http://www.w3.org/2001/XMLSchema#double` |
| `UsageRuleMapper.TimerangeRestrictedRule` | src/util/UsageRuleMapper.ts:123-185 | the document reads back as a permission with the fixed id `…8bca11ab…` and the full USE IRI. It has two constraints on `POLICY_EVALUATION_TIME`, AFTER the start and then BEFORE the end, typed `xsd:dateTimeStamp`, under a context that adds `xsd` |
| `UsageRuleMapper.ConstraintObj` | src/util/UsageRuleMapper.ts:101-117 | a constraint object reads back as its id, left operand, operator, right operand and the operand's type |
| `UsageRuleMapper.IsNumberUsagesRestricted` | src/util/UsageRuleMapper.ts:187-191 | the type guard for the at-most-*n*-uses tag; `GuardsAreExclusive` states what the three guards accept together |
| `UsageRuleMapper.IsTimerangeRestricted` | src/util/UsageRuleMapper.ts:193-197 | the type guard for the time-window tag |
| `UsageRuleMapper.IsUnrestrictedPolicy` | src/util/UsageRuleMapper.ts:199-203 | the type guard for the unrestricted tag |
| `UsageRuleMapper.GuardsAreExclusive` | src/util/UsageRuleMapper.ts:187-203 | exactly one type guard accepts each implemented policy, and none accepts any other |
| `UsageRuleMapper.AbsentPolicyIsUnrestricted` | src/util/UsageRuleMapper.ts:32-39 | no policy and the unrestricted policy map to the same document |
| `UsageRuleMapper.MapUsagePolicyRuleRoundTrip` | src/util/UsageRuleMapper.ts:31-185 | every implemented policy gives a document that decodes back to that very policy, so no two policies share a document |
| `UsageRuleMapper.EveryRuleHasOneUseAction` | src/util/UsageRuleMapper.ts:46-185 | every document has exactly one action, and under its own `@context` it expands to `https://w3id.org/idsa/code/USE` |
| `UsageRuleMapper.CompactUseExpands` | src/util/UsageRuleMapper.ts:48-59 | `idsc:USE` expands to the USE IRI under either context the documents use |
| `UsageRuleMapper.FullUseExpands` | src/util/UsageRuleMapper.ts:178-182 | the spelled-out USE IRI is left unchanged by JSON-LD expansion under either context |
| `UsageRuleMapper.IdentifiersAreFixed` | src/util/UsageRuleMapper.ts:46-185 | two policies of the same kind give the same permission and constraint identifiers, whatever their parameters |
| `UsageRuleMapper.PermissionIdsDistinguishKinds` | src/util/UsageRuleMapper.ts:53-133 | documents for different kinds of policy carry different permission identifiers |
| `DscController.IdsDataUrl` | src/dsc/DscController.ts:274 | the IDS messaging address `${endPointUrl}/api/ids/data`, the recipient of every description and contract request (also :281, :307 and :339) |
| `DscController.ResourceUrl` | src/dsc/DscController.ts:308 | the `${endPointUrl}/api/${collection}/${id}` template: the collection prefix followed by the id; `ResourceUrlRoundTrip` recovers the id |
| `DscController.ArtifactUrl` | src/dsc/DscController.ts:335 | `${endPointUrl}/api/artifacts/${assetId}`; `ArtifactUrlNamesAsset` states what it names |
| `DscController.OfferUrl` | src/dsc/DscController.ts:340 | `${endPointUrl}/api/offers/${offerId}`; `OfferUrlNamesOffer` states what it names |
| `DscController.ContractUrl` | src/dsc/DscController.ts:308 | `${endPointUrl}/api/contracts/${contractOfferId}`; `ContractUrlNamesContractOffer` states what it names |
| `DscController.ContractUrlNamesContractOffer` | src/dsc/DscController.ts:308 | a contract URL gives back its contract-offer id, and is neither an offer URL nor an artifact URL |
| `DscController.ConnectorDescriptionQuery` | src/dsc/DscController.ts:273-275 | the description request for the connector itself: sent to the messaging address, with no element id |
| `DscController.CatalogQuery` | src/dsc/DscController.ts:280-283 | the description request for one catalogue: sent to the messaging address, with the catalogue id as the element |
| `DscController.ContractOfferQuery` | src/dsc/DscController.ts:306-309 | a description request sent to the messaging address whose element is a contract URL naming exactly the given contract offer |
| `DscController.ResourceUrlRoundTrip` | src/dsc/DscController.ts:308 | the id is recovered from a `${endPointUrl}/api/${collection}/${id}` URL |
| `DscController.ResourceUrlInjective` | src/dsc/DscController.ts:338-341 | two resource URLs of one collection are equal exactly when their ids are |
| `DscController.CollectionsDisjoint` | src/dsc/DscController.ts:338-341 | a URL into one collection is never read as one into a collection whose name starts with another letter |
| `DscController.ArtifactUrlNamesAsset` | src/dsc/DscController.ts:335 | an artifact URL gives back its asset id, and is neither an offer URL nor a contract URL |
| `DscController.OfferUrlNamesOffer` | src/dsc/DscController.ts:340 | an offer URL gives back its offer id, and is neither an artifact URL nor a contract URL |
| `Wrappers.MapAll` | src/dsc/DscController.ts:289-298 | `xs.map(f)` with a callback that may throw: on success one result per element, each the callback's value on that element; otherwise the error of the first element whose callback fails (also the `.map` at src/dsc/DscController.ts:357-359) |
| `DscController.RouteSet` | src/dsc/DscController.ts:61 | the truthiness test `if (!this.httpRouteId)`: a route id counts only when it is set and not empty; `TransferNeedsRoute` and `TransferForwardsFirstArtifact` state what follows from it |
| `DscController.FirstCatalogId` | src/dsc/DscController.ts:282 | the `@id` of the first `ids:resourceCatalog` entry; when it is missing, an error at that path |
| `DscController.OfferOf` | src/dsc/DscController.ts:290-297 | an offer record takes its offer, contract-offer and asset ids from their URLs, and the title from `ids:title[0].@value`; it fails exactly when one of the four is missing |
| `DscController.OffersOf` | src/dsc/DscController.ts:289-298 | one record per `ids:offeredResource`, in catalogue order. The first resource that cannot be read decides the error, and a catalogue without the list is an error |
| `DscController.ArtifactRefOf` | src/dsc/DscController.ts:358 | an artifact's reference is its own `_links.self.href`, and an error when that link is missing |
| `DscController.ArtifactRefsOf` | src/dsc/DscController.ts:357-359 | one reference per embedded artifact, in order, or an error when the list or a link is missing |
| `DscController.BindTarget` | src/dsc/DscController.ts:333-335 | `ids:target` is set to the target and every other field keeps its value; a rule that is not an object is an error |
| `DscController.BindTargetReadsBack` | src/dsc/DscController.ts:333-335 | the bound target reads back as written |
| `DscController.ContractRequestFor` | src/dsc/DscController.ts:329-345 | the request goes to the messaging endpoint. It names the one offer and the one artifact, does not download, and carries the first permission with its target bound to that artifact. A missing permission is an error |
| `DscController.ContractRequestNamesOffer` | src/dsc/DscController.ts:337-345 | the offer URL and the artifact URL of the request give back the offer's ids, and the rule's target is the requested artifact |
| `DscController.DatabaseDriverName` | src/dsc/DscController.ts:96-105 | `Postgres` gives `org.postgresql.Driver` and `Oracle` gives `oracle.jdbc.OracleDriver`; any other type fails with "Database Type … not supported" |
| `DscController.DataSourceFor` | src/dsc/DscController.ts:172-190 | both credentials give the error "Either basicAuth or apiKey can be set, not both."; one gives a REST data source with that credential; none gives no data source |
| `DscController.DSCController.constructor` | src/dsc/DscController.ts:38-52 | a new controller has no receiver route |
| `DscController.DSCController.GetAllOffersRun` | src/dsc/DscController.ts:264-299 | the run of `getAllOffers`; it keeps the earlier log as a prefix (its protocol is `AllOffersProtocol`) |
| `DscController.DSCController.ContractOfferDescriptionRun` | src/dsc/DscController.ts:301-313 | one description request for `${endPointUrl}/api/contracts/${id}`; the result is the connector's answer unchanged, or its error |
| `DscController.DSCController.AgreementOf` | src/dsc/DscController.ts:348 | the agreement is the id of the contract response's self link; `NegotiationProtocol` states that the run returns it |
| `DscController.DSCController.NegotiateContractRun` | src/dsc/DscController.ts:315-349 | the run of `negotiateContract`; it keeps the earlier log as a prefix (its protocol is `NegotiationProtocol`) |
| `DscController.DSCController.ArtifactsForAgreementRun` | src/dsc/DscController.ts:351-360 | one request for the agreement's artifacts; the result is the artifact references of the answer, or the connector's error when the request fails |
| `DscController.DSCController.DownloadQuery` | src/dsc/DscController.ts:367-372 | the data query for an artifact URL: the artifact's id, the given download flag and routes, and no agreement; `FirstArtifactDownloads` and `TransferForwardsFirstArtifact` state which artifact is downloaded |
| `DscController.DSCController.DownloadArtifactRun` | src/dsc/DscController.ts:362-373 | one data query for the artifact id of the URL, with the given download flag and routes and no agreement; the result is the connector's answer unchanged, or its error |
| `DscController.DSCController.FirstArtifactRun` | src/dsc/DscController.ts:375-388 | the run of `getFirstArtifact`; it keeps the earlier log as a prefix (its protocol is `FirstArtifactProtocol` and `FirstArtifactDownloads`) |
| `DscController.DSCController.TransferRun` | src/dsc/DscController.ts:58-73 | the run of `transferArtifactsForAgreement`; it keeps the earlier log as a prefix |
| `DscController.DSCController.ReceiverRun` | src/dsc/DscController.ts:462-477 | the run of `setHttpDataReceiver`; it keeps the earlier log as a prefix |
| `DscController.DSCController.ReceiverRouteId` | src/dsc/DscController.ts:463-472 | the route id `setHttpDataReceiver` stores, the route's self link, present once the endpoint and the route have been created; `ReceiverStoresRouteFirst` and `SetHttpDataReceiver` state when it is stored |
| `DscController.DSCController.ArtifactForEndpointRun` | src/dsc/DscController.ts:238-256 | the run of `createArtifactForEndpoint`: it keeps the earlier log, and it succeeds exactly when the route, its start and the artifact are each answered and both self links exist; the result is the artifact creation's answer (the requests are stated by `ArtifactForEndpointProtocol`) |
| `DscController.DSCController.CamelRouteRun` | src/dsc/DscController.ts:107-142 | exactly one request that adds the polling route with the given parameters; it succeeds exactly when the connector answers it |
| `DscController.DSCController.CredentialsRun` | src/dsc/DscController.ts:172-195 | the data-source part of `createHttpEndpointArtifact`; it keeps the earlier log as a prefix |
| `DscController.DSCController.HttpEndpointArtifactRun` | src/dsc/DscController.ts:144-202 | the run of `createHttpEndpointArtifact`; it keeps the earlier log as a prefix |
| `DscController.DSCController.AllOffersProtocol` | src/dsc/DscController.ts:264-299 | on success the earlier log is kept and exactly two description requests follow (`ReadsCatalogue`): the connector description, then the first catalogue that its answer names. The result is exactly the offers read from the catalogue's answer: one record per offered resource, in order |
| `DscController.DSCController.AllOffersSucceeds` | src/dsc/DscController.ts:264-299 | `getAllOffers` succeeds exactly when the description is answered and names a catalogue, the catalogue query is answered, and every offered resource of the answer reads |
| `DscController.DSCController.NegotiationProtocol` | src/dsc/DscController.ts:315-349 | on success the earlier log is kept and the contract offer is read, then one contract request is sent (`NegotiatesOffer`). That request is the one built from the fetched contract offer: its first permission with the target bound to the asset and every other field kept. It names the offer and the asset, does not download, and has one rule whose target is the asset's URL. The agreement id is the one the response links to |
| `DscController.DSCController.NegotiationSucceeds` | src/dsc/DscController.ts:315-349 | `negotiateContract` succeeds exactly when the contract offer is answered, its first permission can be bound, and the contract request built from it is answered |
| `DscController.DSCController.FirstArtifactProtocol` | src/dsc/DscController.ts:375-382 | on success there are exactly six requests, and the first four continue the earlier log (`NegotiatesFirstOffer`). The first two read the catalogue (`ReadsCatalogue`); the next two negotiate the first offer read from the catalogue's answer (`NegotiatesOffer`): its contract offer, then the contract request built from that contract offer's answer |
| `DscController.DSCController.FirstArtifactDownloads` | src/dsc/DscController.ts:383-388 | on success the last two of the six requests (`DownloadsFirstArtifact`) list the artifacts of the agreement the contract response names. They then query the data of the first artifact of that answer, without a download flag or routes. The downloaded data is returned unchanged |
| `DscController.DSCController.FirstArtifactSucceeds` | src/dsc/DscController.ts:375-388 | `getFirstArtifact` succeeds exactly when the offers are read and not empty, the first is negotiated, the agreement's artifacts are listed and not empty, and the download is answered; an empty offer list fails with nothing more sent |
| `DscController.DSCController.TransferNeedsRoute` | src/dsc/DscController.ts:61-64 | without a (non-empty) route id the transfer sends nothing and fails with the "No route has been defined yet…" error |
| `DscController.DSCController.TransferForwardsFirstArtifact` | src/dsc/DscController.ts:65-72 | with a route, the agreement's artifacts are looked up first. On success exactly one more request follows: a forced download of the first artifact only, forwarded to that route. The transfer succeeds exactly when the artifacts are listed, the list is not empty and the download is answered |
| `DscController.DSCController.ReceiverStoresRouteFirst` | src/dsc/DscController.ts:462-477 | the endpoint is created first, then the "Datasink route". The route id is kept as soon as the route exists, even when connecting it then fails, and it is the route's self link. The last request connects that route to the endpoint just created, named by its self link. The run succeeds exactly when the route id is stored and that last request is answered |
| `DscController.DSCController.ReceiverEnablesTransfer` | src/dsc/DscController.ts:58-73 | after a receiver route with a non-empty id is stored, a transfer goes to the connector instead of failing for want of a route |
| `DscController.DSCController.ArtifactForEndpointProtocol` | src/dsc/DscController.ts:238-256 | a route named `<name> Route` is created first. On success it is started at the endpoint's own link, and the artifact is then created with the route's link as its access URL |
| `DscController.DSCController.PollingIgnoresCredentials` | src/dsc/DscController.ts:153-166 | with polling, the API key plays no part and no endpoint or data source is created. On success there is one artifact creation, then one polling route for that artifact's id, and the artifact's id is returned. It succeeds exactly when both requests are answered |
| `DscController.DSCController.BothCredentialsRejected` | src/dsc/DscController.ts:168-173 | without polling, two credentials fail after the endpoint is created and before anything else is sent: with the "not both" error, or with the connector's error if the endpoint failed |
| `DscController.DSCController.CredentialsProtocol` | src/dsc/DscController.ts:167-195 | credentials succeed iff they describe at most one data source and, when there is one, both its creation and its link succeed. Without a data source nothing is sent. With one there are exactly two requests: creating it, then linking it to the endpoint |
| `DscController.DSCController.EndpointArtifactSucceeds` | src/dsc/DscController.ts:167-202 | without polling, `createHttpEndpointArtifact` succeeds exactly when the endpoint is created, the credentials step succeeds and the artifact is created for the endpoint; it returns the self link of the artifact creation's answer |
| `DscController.DSCController.OneCredentialLinksDataSource` | src/dsc/DscController.ts:174-199 | without polling, one credential creates exactly one data source for it and links it to the new endpoint, before the artifact's route is created |
| `DscController.DSCController.NoCredentialsNoDataSource` | src/dsc/DscController.ts:167-199 | without polling or credentials, the endpoint is followed directly by the artifact's route: four requests in all |
| `DscController.DSCController.GetAllOffers` | src/dsc/DscController.ts:264-299 | sends exactly the requests of `GetAllOffersRun` and returns its result |
| `DscController.DSCController.GetContractOfferDescription` | src/dsc/DscController.ts:301-313 | sends the one contract-offer description request and returns the answer unchanged, as `ContractOfferDescriptionRun` states |
| `DscController.DSCController.NegotiateContract` | src/dsc/DscController.ts:315-349 | sends exactly the requests of `NegotiateContractRun` and returns its agreement |
| `DscController.DSCController.GetArtifactsForAgreement` | src/dsc/DscController.ts:351-360 | sends the one request and returns the artifact references of the answer |
| `DscController.DSCController.DownloadArtifact` | src/dsc/DscController.ts:362-373 | sends the one data query and returns the answer unchanged, as `DownloadArtifactRun` states |
| `DscController.DSCController.GetFirstArtifact` | src/dsc/DscController.ts:375-388 | sends exactly the requests of `FirstArtifactRun`; an empty offer list or artifact list is an error before the next request |
| `DscController.DSCController.TransferArtifactsForAgreement` | src/dsc/DscController.ts:58-73 | sends exactly the requests of `TransferRun` for the stored route id |
| `DscController.DSCController.SetHttpDataReceiver` | src/dsc/DscController.ts:462-477 | sends exactly the requests of `ReceiverRun`, and stores the route id once the route exists; otherwise the stored id is unchanged |
| `DscController.DSCController.CreateArtifactForEndpoint` | src/dsc/DscController.ts:238-256 | sends exactly the requests of `ArtifactForEndpointRun` and returns its result, the artifact creation's answer |
| `DscController.DSCController.CreateCustomCamelRoute` | src/dsc/DscController.ts:107-142 | sends the one request that adds the polling route |
| `DscController.DSCController.CreateHttpEndpointArtifact` | src/dsc/DscController.ts:144-202 | sends exactly the requests of `HttpEndpointArtifactRun` and returns its result: the self link of the created artifact, with or without polling (`PollingIgnoresCredentials`, `EndpointArtifactSucceeds`) |

## Left out

- `createCustomCamelRoute` builds a Camel XML route and sends it as an `application/xml` blob.
  The model keeps only the route's parameters (`AddCamelRoute`), not:
  - the XML text;
  - the base64 `Authorization` headers;
  - the controller's own user name and password;
  - the fixed `https://localhost:8080` target.
- `initialize`, `getDescription`, `createValueArtifact`, `createDatabaseArtifact` and
  `createOfferForArtifact` are not modelled. Only `getDatabaseDriverName` is taken from the
  database-artifact path.
- The `DSCConnector` client library and the JSON it exchanges with the real connector are not
  modelled. Responses are arbitrary documents chosen by the oracle.
- `JSON.parse` and `JSON.stringify` are not modelled. The model works on the parsed document, so
  a malformed response string is not represented. The mapper's documents are trees, not their
  serialised text.
- `console.log` output is not modelled.
- Asynchrony, and races between concurrent calls that read or set `httpRouteId`, are not
  modelled. Operations run one at a time.
- `getIdFromURL` and `getSelfRefId` are not modelled. They are total functions about which
  nothing is assumed; in the source, a missing self link may make them throw.
- Reads of a missing last property yield `undefined` in JavaScript and carry on. The model makes
  any missing value an error (`Malformed`) at the point where the source reads it. Examples:
  - a catalogue entry or an artifact without an `@id` or a self link;
  - an empty list at `[0]`;
  - a missing `ids:permission`.
- `usageTimes` is a JavaScript number. The model uses integers only, so fractional counts are not
  modelled.
- Dates enter the documents as the text `toISOString()` gives. The model receives that text and
  does not model the formatting.
- UsageRuleMapper.MapUsagePolicyRule: does not model the exceptions `toISOString()` throws for an
  invalid date (a `RangeError`) or for a time that is not a `Date` (a `TypeError`), at
  src/util/UsageRuleMapper.ts:152 and :167. An `Instant` is always text, so the model's only
  failure is the unimplemented type tag.
- UsageRuleMapper.TimerangeRestrictedRule: always succeeds, because the `toISOString()` failures
  for an invalid or non-`Date` start or end time are not modelled.
- `transferArtifactsForAgreement` and `getFirstArtifact` return nothing and the downloaded data.
  The model returns `()` and the data's document.
- `NegotiateContract`: the source mutates the permission object in place, inside the contract
  offer description it has already received. That description is not used again. The model makes
  a new rule instead, so aliasing is not represented.
- DscController.DSCController.GetAllOffersRun: its own contract states only that the log grows; `AllOffersProtocol` states what it sends and returns, and `AllOffersSucceeds` when it succeeds.
- DscController.DSCController.NegotiateContractRun: its own contract states only that the log grows; `NegotiationProtocol` states what it sends and returns, and `NegotiationSucceeds` when it succeeds.
- DscController.DSCController.FirstArtifactRun: its own contract states only that the log grows; `FirstArtifactProtocol` and `FirstArtifactDownloads` state what it sends and returns, and `FirstArtifactSucceeds` when it succeeds.
- DscController.DSCController.TransferRun: its own contract states only that the log grows; `TransferNeedsRoute` and `TransferForwardsFirstArtifact` state what it sends and when it succeeds.
- DscController.DSCController.ReceiverRun: its own contract states only that the log grows; `ReceiverStoresRouteFirst` states what it sends and when it succeeds.
- DscController.DSCController.ArtifactForEndpointRun: its own contract states the log prefix, when it succeeds and what it returns; the requests themselves are stated by `ArtifactForEndpointProtocol`.
- DscController.DSCController.CredentialsRun: its own contract states only that the log grows; `CredentialsProtocol` states what it sends and when it succeeds.
- DscController.DSCController.HttpEndpointArtifactRun: its own contract states only that the log grows; `PollingIgnoresCredentials` and `EndpointArtifactSucceeds` state when it succeeds and what it returns, and `BothCredentialsRejected`, `OneCredentialLinksDataSource` and `NoCredentialsNoDataSource` what it sends.
- The test file and `src/index.ts` (re-exports) are not modelled.
