/** The controller that drives a Dataspace Connector: it reads the remote
    catalogue, negotiates a contract for an offer, fetches and forwards the
    agreed artifacts, and registers local endpoints as artifacts.
    Every operation is a `Run` over the connector's request log, given as a
    function of the log before it; the methods of `DSCController` are proved
    to send exactly those requests and return exactly that result. */
module DscController {
  import opened Wrappers
  import opened Json
  import opened Errors
  import opened ConnectorApi

  /** An offer of the remote catalogue, reduced to the ids a consumer needs. */
  datatype OfferedResource =
    OfferedResource(offerId: string, contractOfferId: string, assetId: string, assetName: string)

  datatype ContractAgreement = ContractAgreement(contractId: string)

  datatype ArtifactReference = ArtifactReference(url: string)

  datatype Artifact = Artifact(name: string, description: Option<string>)

  datatype ApiKey = ApiKey(headerKey: string, value: string)

  datatype ResourcePolling = ResourcePolling(delay: int, period: int)

  const NoRouteMessage: string :=
    "No route has been defined yet. Use downloadArtifact method or setup route with setHttpDataReceiver before calling this method."
  const BothAuthMessage: string := "Either basicAuth or apiKey can be set, not both."
  const GenericEndpoint: string := "GENERIC"
  const RestDataSource: string := "REST"
  const DatasinkRouteTitle: string := "Datasink route"
  const RouteTitleSuffix: string := " Route"
  const PostgresDriver: string := "org.postgresql.Driver"
  const OracleDriver: string := "oracle.jdbc.OracleDriver"
  const TargetKey: string := "ids:target"

  const OffersCollection: string := "offers"
  const ArtifactsCollection: string := "artifacts"
  const ContractsCollection: string := "contracts"

  // Property paths read from the documents the connector returns.
  const ResourceCatalogIdPath: seq<Step> := [Key("ids:resourceCatalog"), Index(0), Key("@id")]
  const OfferedResourcesPath: seq<Step> := [Key("ids:offeredResource")]
  const OfferIdPath: seq<Step> := [Key("@id")]
  const ContractOfferIdPath: seq<Step> := [Key("ids:contractOffer"), Index(0), Key("@id")]
  const AssetIdPath: seq<Step> :=
    [Key("ids:representation"), Index(0), Key("ids:instance"), Index(0), Key("@id")]
  const AssetNamePath: seq<Step> := [Key("ids:title"), Index(0), Key("@value")]
  const FirstPermissionPath: seq<Step> := [Key("ids:permission"), Index(0)]
  const EmbeddedArtifactsPath: seq<Step> := [Key("_embedded"), Key("artifacts")]
  const SelfHrefPath: seq<Step> := [Key("_links"), Key("self"), Key("href")]
  /** `list[0]` of an empty list. */
  const FirstElement: seq<Step> := [Index(0)]

  // ---------------------------------------------------------------- URLs

  /** The connector's IDS messaging endpoint. */
  function IdsDataUrl(endPointUrl: string): string {
    endPointUrl + "/api/ids/data"
  }

  function ResourcePrefix(endPointUrl: string, collection: string): string {
    endPointUrl + "/api/" + collection + "/"
  }

  /** `${endPointUrl}/api/${collection}/${id}` */
  function ResourceUrl(endPointUrl: string, collection: string, id: string): (u: string)
    ensures u == ResourcePrefix(endPointUrl, collection) + id
  {
    endPointUrl + "/api/" + collection + "/" + id
  }

  /** The id a resource URL of `collection` ends with; None for any other URL. */
  function ResourceIdOf(endPointUrl: string, collection: string, url: string): (r: Option<string>)
    ensures r.Some? <==> ResourcePrefix(endPointUrl, collection) <= url
    ensures r.Some? ==> ResourceUrl(endPointUrl, collection, r.value) == url
  {
    var prefix := ResourcePrefix(endPointUrl, collection);
    if prefix <= url then
      assert prefix + url[|prefix|..] == url;
      Some(url[|prefix|..])
    else None
  }

  lemma ResourceUrlRoundTrip(endPointUrl: string, collection: string, id: string)
    ensures ResourceIdOf(endPointUrl, collection, ResourceUrl(endPointUrl, collection, id)) == Some(id)
  {
    var prefix := ResourcePrefix(endPointUrl, collection);
    assert (prefix + id)[|prefix|..] == id;
  }

  lemma ResourceUrlInjective(endPointUrl: string, collection: string, id1: string, id2: string)
    ensures ResourceUrl(endPointUrl, collection, id1) == ResourceUrl(endPointUrl, collection, id2)
            <==> id1 == id2
  {
    ResourceUrlRoundTrip(endPointUrl, collection, id1);
    ResourceUrlRoundTrip(endPointUrl, collection, id2);
  }

  /** A URL into one collection is never read as a URL into a collection
      whose name starts differently (offers, artifacts, contracts). */
  lemma {:induction false} CollectionsDisjoint(endPointUrl: string, c1: string, c2: string, id: string)
    requires c1 != [] && c2 != [] && c1[0] != c2[0]
    ensures ResourceIdOf(endPointUrl, c1, ResourceUrl(endPointUrl, c2, id)) == None
  {
    var p := ResourcePrefix(endPointUrl, c1);
    var u := ResourceUrl(endPointUrl, c2, id);
    var k := |endPointUrl| + 5;
    assert p == endPointUrl + "/api/" + (c1 + "/");
    assert p[k] == c1[0];
    assert u == endPointUrl + "/api/" + (c2 + "/" + id);
    assert u[k] == c2[0];
  }

  function ArtifactUrl(endPointUrl: string, assetId: string): string {
    ResourceUrl(endPointUrl, ArtifactsCollection, assetId)
  }

  function OfferUrl(endPointUrl: string, offerId: string): string {
    ResourceUrl(endPointUrl, OffersCollection, offerId)
  }

  function ContractUrl(endPointUrl: string, contractOfferId: string): string {
    ResourceUrl(endPointUrl, ContractsCollection, contractOfferId)
  }

  /** An artifact URL names its asset and only that collection. */
  lemma ArtifactUrlNamesAsset(endPointUrl: string, assetId: string)
    ensures ResourceIdOf(endPointUrl, ArtifactsCollection, ArtifactUrl(endPointUrl, assetId)) == Some(assetId)
    ensures ResourceIdOf(endPointUrl, OffersCollection, ArtifactUrl(endPointUrl, assetId)) == None
    ensures ResourceIdOf(endPointUrl, ContractsCollection, ArtifactUrl(endPointUrl, assetId)) == None
  {
    ResourceUrlRoundTrip(endPointUrl, ArtifactsCollection, assetId);
    CollectionsDisjoint(endPointUrl, OffersCollection, ArtifactsCollection, assetId);
    CollectionsDisjoint(endPointUrl, ContractsCollection, ArtifactsCollection, assetId);
  }

  /** An offer URL names its offer and only that collection. */
  lemma OfferUrlNamesOffer(endPointUrl: string, offerId: string)
    ensures ResourceIdOf(endPointUrl, OffersCollection, OfferUrl(endPointUrl, offerId)) == Some(offerId)
    ensures ResourceIdOf(endPointUrl, ArtifactsCollection, OfferUrl(endPointUrl, offerId)) == None
    ensures ResourceIdOf(endPointUrl, ContractsCollection, OfferUrl(endPointUrl, offerId)) == None
  {
    ResourceUrlRoundTrip(endPointUrl, OffersCollection, offerId);
    CollectionsDisjoint(endPointUrl, ArtifactsCollection, OffersCollection, offerId);
    CollectionsDisjoint(endPointUrl, ContractsCollection, OffersCollection, offerId);
  }

  /** A contract URL names its contract offer and only that collection. */
  lemma ContractUrlNamesContractOffer(endPointUrl: string, contractOfferId: string)
    ensures ResourceIdOf(endPointUrl, ContractsCollection, ContractUrl(endPointUrl, contractOfferId)) == Some(contractOfferId)
    ensures ResourceIdOf(endPointUrl, OffersCollection, ContractUrl(endPointUrl, contractOfferId)) == None
    ensures ResourceIdOf(endPointUrl, ArtifactsCollection, ContractUrl(endPointUrl, contractOfferId)) == None
  {
    ResourceUrlRoundTrip(endPointUrl, ContractsCollection, contractOfferId);
    CollectionsDisjoint(endPointUrl, OffersCollection, ContractsCollection, contractOfferId);
    CollectionsDisjoint(endPointUrl, ArtifactsCollection, ContractsCollection, contractOfferId);
  }

  // ------------------------------------------------------------- Requests

  function ConnectorDescriptionQuery(endPointUrl: string): Request {
    SendIdsDescription(IdsDataUrl(endPointUrl), None)
  }

  function CatalogQuery(endPointUrl: string, catalogId: string): Request {
    SendIdsDescription(IdsDataUrl(endPointUrl), Some(catalogId))
  }

  /** A description request for a contract offer, at its contract URL. */
  function ContractOfferQuery(endPointUrl: string, contractOfferId: string): (q: Request)
    ensures q.SendIdsDescription? && q.recipient == IdsDataUrl(endPointUrl) && q.elementId.Some?
    ensures ResourceIdOf(endPointUrl, ContractsCollection, q.elementId.value) == Some(contractOfferId)
  {
    ContractUrlNamesContractOffer(endPointUrl, contractOfferId);
    SendIdsDescription(IdsDataUrl(endPointUrl), Some(ContractUrl(endPointUrl, contractOfferId)))
  }

  // ---------------------------------------------------------- Projections

  /** A read that must find something: a missing value is an error at `path`. */
  function Need<T>(o: Option<T>, path: seq<Step>): (r: Result<T, Error>)
    ensures r.Success? <==> o.Some?
    ensures r.Success? ==> r.value == o.value
    ensures r.Failure? ==> r.error == Malformed(path)
  {
    match o
    case Some(v) => Success(v)
    case None => Failure(Malformed(path))
  }

  /** The `@id` of the first resource catalogue of a connector description. */
  function FirstCatalogId(connectorDescription: Json): (r: Result<string, Error>)
    ensures r.Success? <==> TextAt(connectorDescription, ResourceCatalogIdPath).Some?
    ensures r.Success? ==> Some(r.value) == TextAt(connectorDescription, ResourceCatalogIdPath)
    ensures r.Failure? ==> r.error == Malformed(ResourceCatalogIdPath)
  {
    Need(TextAt(connectorDescription, ResourceCatalogIdPath), ResourceCatalogIdPath)
  }

  /** The record kept for one offered resource of a catalogue. */
  function OfferOf(idFromUrl: string -> string, resource: Json): (r: Result<OfferedResource, Error>)
    ensures r.Success? <==>
      TextAt(resource, OfferIdPath).Some? && TextAt(resource, ContractOfferIdPath).Some? &&
      TextAt(resource, AssetIdPath).Some? && TextAt(resource, AssetNamePath).Some?
    ensures r.Success? ==>
      r.value == OfferedResource(idFromUrl(TextAt(resource, OfferIdPath).value),
                                 idFromUrl(TextAt(resource, ContractOfferIdPath).value),
                                 idFromUrl(TextAt(resource, AssetIdPath).value),
                                 TextAt(resource, AssetNamePath).value)
    ensures r.Failure? ==>
      r.error.Malformed? && r.error.path in [OfferIdPath, ContractOfferIdPath, AssetIdPath, AssetNamePath]
  {
    var offerUrl :- Need(TextAt(resource, OfferIdPath), OfferIdPath);
    var contractOfferUrl :- Need(TextAt(resource, ContractOfferIdPath), ContractOfferIdPath);
    var assetUrl :- Need(TextAt(resource, AssetIdPath), AssetIdPath);
    var assetName :- Need(TextAt(resource, AssetNamePath), AssetNamePath);
    Success(OfferedResource(idFromUrl(offerUrl), idFromUrl(contractOfferUrl), idFromUrl(assetUrl), assetName))
  }

  /** One record per offered resource of a catalogue, in catalogue order. */
  function OffersOf(idFromUrl: string -> string, catalogDescription: Json): (r: Result<seq<OfferedResource>, Error>)
    ensures ItemsAt(catalogDescription, OfferedResourcesPath).None? ==>
      r == Failure(Malformed(OfferedResourcesPath))
    ensures r.Success? ==>
      var resources := ItemsAt(catalogDescription, OfferedResourcesPath);
      resources.Some? && |r.value| == |resources.value| &&
      forall i :: 0 <= i < |resources.value| ==> OfferOf(idFromUrl, resources.value[i]) == Success(r.value[i])
    ensures r.Failure? && ItemsAt(catalogDescription, OfferedResourcesPath).Some? ==>
      var resources := ItemsAt(catalogDescription, OfferedResourcesPath).value;
      exists k :: 0 <= k < |resources| && OfferOf(idFromUrl, resources[k]) == Failure(r.error) &&
                  forall j :: 0 <= j < k ==> OfferOf(idFromUrl, resources[j]).Success?
  {
    var resources :- Need(ItemsAt(catalogDescription, OfferedResourcesPath), OfferedResourcesPath);
    MapAll(resource => OfferOf(idFromUrl, resource), resources)
  }

  /** The reference kept for one artifact of an agreement. */
  function ArtifactRefOf(artifact: Json): (r: Result<ArtifactReference, Error>)
    ensures r.Success? <==> TextAt(artifact, SelfHrefPath).Some?
    ensures r.Success? ==> Some(r.value.url) == TextAt(artifact, SelfHrefPath)
    ensures r.Failure? ==> r.error == Malformed(SelfHrefPath)
  {
    var url :- Need(TextAt(artifact, SelfHrefPath), SelfHrefPath);
    Success(ArtifactReference(url))
  }

  /** One reference per embedded artifact of an agreement, in order. */
  function ArtifactRefsOf(agreementArtifacts: Json): (r: Result<seq<ArtifactReference>, Error>)
    ensures ItemsAt(agreementArtifacts, EmbeddedArtifactsPath).None? ==>
      r == Failure(Malformed(EmbeddedArtifactsPath))
    ensures r.Success? ==>
      var artifacts := ItemsAt(agreementArtifacts, EmbeddedArtifactsPath);
      artifacts.Some? && |r.value| == |artifacts.value| &&
      forall i :: 0 <= i < |artifacts.value| ==>
        Some(r.value[i].url) == TextAt(artifacts.value[i], SelfHrefPath)
    ensures r.Failure? && ItemsAt(agreementArtifacts, EmbeddedArtifactsPath).Some? ==>
      r.error == Malformed(SelfHrefPath) &&
      exists k :: 0 <= k < |ItemsAt(agreementArtifacts, EmbeddedArtifactsPath).value| &&
        TextAt(ItemsAt(agreementArtifacts, EmbeddedArtifactsPath).value[k], SelfHrefPath).None?
  {
    var artifacts :- Need(ItemsAt(agreementArtifacts, EmbeddedArtifactsPath), EmbeddedArtifactsPath);
    MapAll(ArtifactRefOf, artifacts)
  }

  // ---------------------------------------------------------- Negotiation

  /** The assignment `rule['ids:target'] = target`, which needs an object. */
  function BindTarget(rule: Json, target: string): (r: Result<Json, Error>)
    ensures r.Success? <==> rule.Obj?
    ensures r.Failure? ==> r.error == Malformed(FirstPermissionPath)
    ensures r.Success? ==>
      r.value.Obj? && Lookup(r.value.fields, TargetKey) == Some(Str(target)) &&
      forall k :: k != TargetKey ==> Lookup(r.value.fields, k) == Lookup(rule.fields, k)
  {
    if rule.Obj? then Success(Obj(SetField(rule.fields, TargetKey, Str(target))))
    else Failure(Malformed(FirstPermissionPath))
  }

  /** The bound target reads back as written. */
  lemma BindTargetReadsBack(rule: Json, target: string)
    requires rule.Obj?
    ensures TextAt(BindTarget(rule, target).value, [Key(TargetKey)]) == Some(target)
  {
    AtOne(BindTarget(rule, target).value, Key(TargetKey));
  }

  /** The contract request for `offer`: the first permission of the contract
      offer, with its target bound to the offer's artifact. */
  function ContractRequestFor(endPointUrl: string, offer: OfferedResource, contractOfferDescription: Json)
    : (r: Result<Request, Error>)
    ensures r.Success? <==>
      At(contractOfferDescription, FirstPermissionPath).Some? &&
      At(contractOfferDescription, FirstPermissionPath).value.Obj?
    ensures r.Failure? ==> r.error == Malformed(FirstPermissionPath)
    ensures r.Success? ==>
      var q := r.value;
      var permission := At(contractOfferDescription, FirstPermissionPath).value;
      q.SendContractRequest? && q.recipient == IdsDataUrl(endPointUrl) &&
      q.resourceIds == [OfferUrl(endPointUrl, offer.offerId)] &&
      q.artifactIds == [ArtifactUrl(endPointUrl, offer.assetId)] &&
      !q.download && |q.rules| == 1 && q.rules[0].Obj? &&
      Lookup(q.rules[0].fields, TargetKey) == Some(Str(q.artifactIds[0])) &&
      forall k :: k != TargetKey ==> Lookup(q.rules[0].fields, k) == Lookup(permission.fields, k)
  {
    var permission :- Need(At(contractOfferDescription, FirstPermissionPath), FirstPermissionPath);
    var rule :- BindTarget(permission, ArtifactUrl(endPointUrl, offer.assetId));
    Success(SendContractRequest(IdsDataUrl(endPointUrl), [OfferUrl(endPointUrl, offer.offerId)],
                                [ArtifactUrl(endPointUrl, offer.assetId)], false, [rule]))
  }

  /** The contract request names exactly the offer and the asset it was made for. */
  lemma ContractRequestNamesOffer(endPointUrl: string, offer: OfferedResource, contractOfferDescription: Json)
    requires ContractRequestFor(endPointUrl, offer, contractOfferDescription).Success?
    ensures var q := ContractRequestFor(endPointUrl, offer, contractOfferDescription).value;
      ResourceIdOf(endPointUrl, OffersCollection, q.resourceIds[0]) == Some(offer.offerId) &&
      ResourceIdOf(endPointUrl, ArtifactsCollection, q.artifactIds[0]) == Some(offer.assetId) &&
      TextAt(q.rules[0], [Key(TargetKey)]) == Some(q.artifactIds[0])
  {
    var q := ContractRequestFor(endPointUrl, offer, contractOfferDescription).value;
    OfferUrlNamesOffer(endPointUrl, offer.offerId);
    ArtifactUrlNamesAsset(endPointUrl, offer.assetId);
    AtOne(q.rules[0], Key(TargetKey));
  }

  // ------------------------------------------------- Artifacts and sources

  /** The JDBC driver class for a database type. */
  function DatabaseDriverName(database: string): (r: Result<string, Error>)
    ensures r.Success? <==> database == "Postgres" || database == "Oracle"
    ensures database == "Postgres" ==> r == Success(PostgresDriver)
    ensures database == "Oracle" ==> r == Success(OracleDriver)
    ensures r.Failure? ==> r.error == Thrown("Database Type " + database + " not supported")
  {
    match database
    case "Postgres" => Success(PostgresDriver)
    case "Oracle" => Success(OracleDriver)
    case _ => Failure(Thrown("Database Type " + database + " not supported"))
  }

  /** The data source an HTTP endpoint is linked to: one per credential,
      none without, and an error when both kinds are given. */
  function DataSourceFor(apiKey: Option<ApiKey>, basicAuth: Option<BasicAuth>)
    : (r: Result<Option<DataSourceDesc>, Error>)
    ensures r.Failure? <==> apiKey.Some? && basicAuth.Some?
    ensures r.Failure? ==> r.error == Thrown(BothAuthMessage)
    ensures r == Success(None) <==> apiKey.None? && basicAuth.None?
    ensures apiKey.Some? && basicAuth.None? ==>
      r == Success(Some(DataSourceDesc(ApiKeyCredential(apiKey.value.headerKey, apiKey.value.value), RestDataSource)))
    ensures apiKey.None? && basicAuth.Some? ==>
      r == Success(Some(DataSourceDesc(BasicAuthCredential(basicAuth.value.username, basicAuth.value.password),
                                       RestDataSource)))
  {
    if apiKey.Some? && basicAuth.Some? then Failure(Thrown(BothAuthMessage))
    else if apiKey.Some? then
      Success(Some(DataSourceDesc(ApiKeyCredential(apiKey.value.headerKey, apiKey.value.value), RestDataSource)))
    else if basicAuth.Some? then
      Success(Some(DataSourceDesc(BasicAuthCredential(basicAuth.value.username, basicAuth.value.password),
                                  RestDataSource)))
    else Success(None)
  }

  /** `if (this.httpRouteId)`: set and not the empty string. */
  predicate RouteSet(routeId: Option<string>) {
    routeId.Some? && routeId.value != ""
  }

  /** The response of a run whose documents are read with `read`. */
  function ReadWith<T>(run: Run<Json>, read: Json -> Result<T, Error>): (r: Run<T>)
    ensures r.log == run.log
    ensures run.result.Failure? ==> r.result == Failure(run.result.error)
    ensures run.result.Success? ==> r.result == read(run.result.value)
  {
    match run.result
    case Failure(e) => Fail(run.log, e)
    case Success(d) => Run(run.log, read(d))
  }

  // ---------------------------------------------------------- Controller

  class DSCController {
    const connectorApi: Connector
    /** The last path segment of a URL (`getIdFromURL`). */
    const idFromUrl: string -> string
    /** The id in a created object's own link (`getSelfRefId`). */
    const selfRefId: Json -> string
    /** The route that forwards downloaded artifacts, once set up. */
    var httpRouteId: Option<string>

    constructor (connectorApi: Connector, idFromUrl: string -> string, selfRefId: Json -> string)
      ensures this.connectorApi == connectorApi && this.idFromUrl == idFromUrl && this.selfRefId == selfRefId
      ensures httpRouteId == None
    {
      this.connectorApi := connectorApi;
      this.idFromUrl := idFromUrl;
      this.selfRefId := selfRefId;
      httpRouteId := None;
    }

    // The runs: what each operation sends after the log `h0`, and returns.

    function GetAllOffersRun(endPointUrl: string, h0: seq<Request>): (run: Run<seq<OfferedResource>>)
      ensures h0 <= run.log
    {
      var described := connectorApi.Call(h0, ConnectorDescriptionQuery(endPointUrl));
      var catalogId := ReadWith(described, FirstCatalogId);
      if catalogId.result.Failure? then Fail(described.log, catalogId.result.error)
      else
        var catalog := connectorApi.Call(described.log, CatalogQuery(endPointUrl, catalogId.result.value));
        ReadWith(catalog, c => OffersOf(idFromUrl, c))
    }

    function ContractOfferDescriptionRun(endPointUrl: string, contractOfferId: string, h0: seq<Request>)
      : (run: Run<Json>)
      ensures run.log == h0 + [ContractOfferQuery(endPointUrl, contractOfferId)]
      ensures run.result == if connectorApi.respond(run.log).Success? then Success(connectorApi.respond(run.log).value)
                            else Failure(Remote(connectorApi.respond(run.log).error))
    {
      connectorApi.Call(h0, ContractOfferQuery(endPointUrl, contractOfferId))
    }

    /** The agreement named by the self link of a contract response. */
    function AgreementOf(response: Json): ContractAgreement {
      ContractAgreement(idFromUrl(selfRefId(response)))
    }

    function NegotiateContractRun(endPointUrl: string, offer: OfferedResource, h0: seq<Request>)
      : (run: Run<ContractAgreement>)
      ensures h0 <= run.log
    {
      var described := ContractOfferDescriptionRun(endPointUrl, offer.contractOfferId, h0);
      var request := ReadWith(described, d => ContractRequestFor(endPointUrl, offer, d));
      if request.result.Failure? then Fail(described.log, request.result.error)
      else ReadWith(connectorApi.Call(described.log, request.result.value), c => Success(AgreementOf(c)))
    }

    function ArtifactsForAgreementRun(contractId: string, h0: seq<Request>): (run: Run<seq<ArtifactReference>>)
      ensures run.log == h0 + [AgreementArtifactsQuery(contractId)]
      ensures connectorApi.respond(run.log).Success? ==>
        run.result == ArtifactRefsOf(connectorApi.respond(run.log).value)
      ensures connectorApi.respond(run.log).Failure? ==>
        run.result == Failure(Remote(connectorApi.respond(run.log).error))
    {
      ReadWith(connectorApi.Call(h0, AgreementArtifactsQuery(contractId)), ArtifactRefsOf)
    }

    function DownloadQuery(artifactUrl: string, forceDownload: Option<bool>, forwardToRouteIds: Option<seq<string>>)
      : Request
    {
      GetDataQuery(idFromUrl(artifactUrl), forceDownload, None, forwardToRouteIds)
    }

    function DownloadArtifactRun(artifactUrl: string, forceDownload: Option<bool>,
                                 forwardToRouteIds: Option<seq<string>>, h0: seq<Request>): (run: Run<Json>)
      ensures run.log == h0 + [DownloadQuery(artifactUrl, forceDownload, forwardToRouteIds)]
      ensures run.result == if connectorApi.respond(run.log).Success? then Success(connectorApi.respond(run.log).value)
                            else Failure(Remote(connectorApi.respond(run.log).error))
    {
      connectorApi.Call(h0, DownloadQuery(artifactUrl, forceDownload, forwardToRouteIds))
    }

    function FirstArtifactRun(endPointUrl: string, h0: seq<Request>): (run: Run<Json>)
      ensures h0 <= run.log
    {
      var offers := GetAllOffersRun(endPointUrl, h0);
      if offers.result.Failure? then Fail(offers.log, offers.result.error)
      else if offers.result.value == [] then Fail(offers.log, Malformed(FirstElement))
      else
        var contract := NegotiateContractRun(endPointUrl, offers.result.value[0], offers.log);
        if contract.result.Failure? then Fail(contract.log, contract.result.error)
        else
          var artifacts := ArtifactsForAgreementRun(contract.result.value.contractId, contract.log);
          if artifacts.result.Failure? then Fail(artifacts.log, artifacts.result.error)
          else if artifacts.result.value == [] then Fail(artifacts.log, Malformed(FirstElement))
          else DownloadArtifactRun(artifacts.result.value[0].url, None, None, artifacts.log)
    }

    function TransferRun(contractAgreementId: string, routeId: Option<string>, h0: seq<Request>): (run: Run<()>)
      ensures h0 <= run.log
    {
      if !RouteSet(routeId) then Fail(h0, Thrown(NoRouteMessage))
      else
        var artifacts := ArtifactsForAgreementRun(contractAgreementId, h0);
        if artifacts.result.Failure? then Fail(artifacts.log, artifacts.result.error)
        else if artifacts.result.value == [] then Fail(artifacts.log, Malformed(FirstElement))
        else Done(DownloadArtifactRun(artifacts.result.value[0].url, Some(true), Some([routeId.value]), artifacts.log))
    }

    function ReceiverRun(url: string, h0: seq<Request>): (run: Run<()>)
      ensures h0 <= run.log
    {
      var endpoint := connectorApi.Call(h0, CreateEndpoint(url, GenericEndpoint));
      if endpoint.result.Failure? then Fail(endpoint.log, endpoint.result.error)
      else
        var route := connectorApi.Call(endpoint.log, CreateRoute(DatasinkRouteTitle, Camel));
        if route.result.Failure? then Fail(route.log, route.result.error)
        else
          Done(connectorApi.Call(route.log, CreateLastEndpoint(selfRefId(route.result.value),
                                                               selfRefId(endpoint.result.value))))
    }

    /** The route id `setHttpDataReceiver` stores: set as soon as the route exists. */
    function ReceiverRouteId(url: string, h0: seq<Request>): Option<string> {
      var endpoint := connectorApi.Call(h0, CreateEndpoint(url, GenericEndpoint));
      if endpoint.result.Failure? then None
      else
        var route := connectorApi.Call(endpoint.log, CreateRoute(DatasinkRouteTitle, Camel));
        if route.result.Failure? then None else Some(selfRefId(route.result.value))
    }

    function ArtifactForEndpointRun(artifact: Artifact, endpoint: Json, h0: seq<Request>): (run: Run<Json>)
      ensures h0 <= run.log
      ensures var q1 := CreateRoute(artifact.name + RouteTitleSuffix, Camel);
        var route := connectorApi.respond(h0 + [q1]);
        run.result.Success? <==>
          route.Success? && TextAt(endpoint, SelfHrefPath).Some? &&
          var q2 := CreateStartEndpoint(selfRefId(route.value), TextAt(endpoint, SelfHrefPath).value);
          connectorApi.respond(h0 + [q1] + [q2]).Success? && TextAt(route.value, SelfHrefPath).Some? &&
          connectorApi.respond(h0 + [q1] + [q2] +
            [CreateArtifact(artifact.name, artifact.description, TextAt(route.value, SelfHrefPath))]).Success?
      ensures run.result.Success? ==> connectorApi.respond(run.log) == Success(run.result.value)
    {
      var route := connectorApi.Call(h0, CreateRoute(artifact.name + RouteTitleSuffix, Camel));
      if route.result.Failure? then Fail(route.log, route.result.error)
      else if TextAt(endpoint, SelfHrefPath).None? then Fail(route.log, Malformed(SelfHrefPath))
      else
        var started := connectorApi.Call(route.log, CreateStartEndpoint(selfRefId(route.result.value),
                                                                        TextAt(endpoint, SelfHrefPath).value));
        if started.result.Failure? then Fail(started.log, started.result.error)
        else if TextAt(route.result.value, SelfHrefPath).None? then Fail(started.log, Malformed(SelfHrefPath))
        else
          connectorApi.Call(started.log, CreateArtifact(artifact.name, artifact.description,
                                                        Some(TextAt(route.result.value, SelfHrefPath).value)))
    }

    function CamelRouteRun(artifactId: string, url: string, delay: int, period: int, mimeType: string,
                           basicAuth: Option<BasicAuth>, h0: seq<Request>): (run: Run<()>)
      ensures run.log == h0 + [AddCamelRoute(artifactId, url, delay, period, mimeType, basicAuth)]
      ensures run.result.Success? <==> connectorApi.respond(run.log).Success?
    {
      Done(connectorApi.Call(h0, AddCamelRoute(artifactId, url, delay, period, mimeType, basicAuth)))
    }

    /** Creating and linking the data source for an endpoint's credentials. */
    function CredentialsRun(endpoint: Json, apiKey: Option<ApiKey>, basicAuth: Option<BasicAuth>, h0: seq<Request>)
      : (run: Run<()>)
      ensures h0 <= run.log
    {
      match DataSourceFor(apiKey, basicAuth)
      case Failure(e) => Fail(h0, e)
      case Success(None) => Run(h0, Success(()))
      case Success(Some(desc)) =>
        var dataSource := connectorApi.Call(h0, CreateDataSource(desc));
        if dataSource.result.Failure? then Fail(dataSource.log, dataSource.result.error)
        else
          Done(connectorApi.Call(dataSource.log, LinkDataSource(selfRefId(endpoint),
                                                                selfRefId(dataSource.result.value))))
    }

    function HttpEndpointArtifactRun(artifact: Artifact, endpointUrl: string, mimeType: string,
                                     apiKey: Option<ApiKey>, basicAuth: Option<BasicAuth>,
                                     resourcePolling: Option<ResourcePolling>, h0: seq<Request>)
      : (run: Run<string>)
      ensures h0 <= run.log
    {
      if resourcePolling.Some? then
        var created := connectorApi.Call(h0, CreateArtifact(artifact.name, None, None));
        if created.result.Failure? then Fail(created.log, created.result.error)
        else
          var routed := CamelRouteRun(idFromUrl(selfRefId(created.result.value)), endpointUrl,
                                      resourcePolling.value.delay, resourcePolling.value.period,
                                      mimeType, basicAuth, created.log);
          if routed.result.Failure? then Fail(routed.log, routed.result.error)
          else Run(routed.log, Success(selfRefId(created.result.value)))
      else
        var endpoint := connectorApi.Call(h0, CreateEndpoint(endpointUrl, GenericEndpoint));
        if endpoint.result.Failure? then Fail(endpoint.log, endpoint.result.error)
        else
          var linked := CredentialsRun(endpoint.result.value, apiKey, basicAuth, endpoint.log);
          if linked.result.Failure? then Fail(linked.log, linked.result.error)
          else
            var created := ArtifactForEndpointRun(Artifact(artifact.name, None), endpoint.result.value, linked.log);
            if created.result.Failure? then Fail(created.log, created.result.error)
            else Run(created.log, Success(selfRefId(created.result.value)))
    }

    // What the runs promise.

    /** The catalogue is read in two description requests to the messaging
        endpoint, the second asking for the first catalogue the first names;
        the result is the offers read from the catalogue's answer, one record
        per offered resource, in order. */
    lemma AllOffersProtocol(endPointUrl: string, h0: seq<Request>)
      ensures var run := GetAllOffersRun(endPointUrl, h0);
        run.result.Success? ==>
          ReadsCatalogue(endPointUrl, h0, run.log) &&
          run.result == OffersOf(idFromUrl, connectorApi.respond(run.log).value) &&
          var resources := ItemsAt(connectorApi.respond(run.log).value, OfferedResourcesPath);
          resources.Some? && |run.result.value| == |resources.value| &&
          forall i :: 0 <= i < |resources.value| ==>
            OfferOf(idFromUrl, resources.value[i]) == Success(run.result.value[i])
    {
      var run := GetAllOffersRun(endPointUrl, h0);
      var q1 := ConnectorDescriptionQuery(endPointUrl);
      if run.result.Success? {
        assert run.log[..|h0| + 1] == h0 + [q1];
      }
    }

    /** `getAllOffers` returns the offers whenever the connector answers both
        requests, its description names a catalogue, and every offered
        resource of the catalogue reads. */
    lemma AllOffersSucceeds(endPointUrl: string, h0: seq<Request>)
      ensures var run := GetAllOffersRun(endPointUrl, h0);
        var q1 := ConnectorDescriptionQuery(endPointUrl);
        var described := connectorApi.respond(h0 + [q1]);
        run.result.Success? <==>
          described.Success? && FirstCatalogId(described.value).Success? &&
          var catalog := connectorApi.respond(h0 + [q1] + [CatalogQuery(endPointUrl, FirstCatalogId(described.value).value)]);
          catalog.Success? && OffersOf(idFromUrl, catalog.value).Success?
    {
    }

    /** `log` continues `h0` with the two requests that read the catalogue:
        the connector description, then the first catalogue its answer names. */
    ghost predicate ReadsCatalogue(endPointUrl: string, h0: seq<Request>, log: seq<Request>)
    {
      var n := |h0|;
      |log| == n + 2 && log[..n] == h0 && log[n] == ConnectorDescriptionQuery(endPointUrl) &&
      var described := connectorApi.respond(log[..n + 1]);
      described.Success? && FirstCatalogId(described.value).Success? &&
      log[n + 1] == CatalogQuery(endPointUrl, FirstCatalogId(described.value).value) &&
      connectorApi.respond(log).Success?
    }

    /** Negotiation reads the contract offer, then sends one contract request
        that names the offer and its asset and binds the first permission to
        that asset; the agreement is the one the response links to. */
    lemma NegotiationProtocol(endPointUrl: string, offer: OfferedResource, h0: seq<Request>)
      ensures var run := NegotiateContractRun(endPointUrl, offer, h0);
        run.result.Success? ==>
          var n := |h0|;
          NegotiatesOffer(endPointUrl, offer, h0, run.log) &&
          var q := run.log[n + 1];
          q.SendContractRequest? && q.recipient == IdsDataUrl(endPointUrl) && !q.download &&
          ResourceIdOf(endPointUrl, OffersCollection, q.resourceIds[0]) == Some(offer.offerId) &&
          ResourceIdOf(endPointUrl, ArtifactsCollection, q.artifactIds[0]) == Some(offer.assetId) &&
          |q.rules| == 1 && TextAt(q.rules[0], [Key(TargetKey)]) == Some(q.artifactIds[0]) &&
          run.result.value.contractId == idFromUrl(selfRefId(connectorApi.respond(run.log).value))
    {
      var run := NegotiateContractRun(endPointUrl, offer, h0);
      if run.result.Success? {
        var described := ContractOfferDescriptionRun(endPointUrl, offer.contractOfferId, h0);
        assert run.log[..|h0| + 1] == described.log;
        ContractRequestNamesOffer(endPointUrl, offer, described.result.value);
      }
    }

    /** `negotiateContract` returns an agreement whenever the contract offer is
        answered, its first permission can be bound, and the contract request
        is answered. */
    lemma NegotiationSucceeds(endPointUrl: string, offer: OfferedResource, h0: seq<Request>)
      ensures var run := NegotiateContractRun(endPointUrl, offer, h0);
        var q1 := ContractOfferQuery(endPointUrl, offer.contractOfferId);
        var described := connectorApi.respond(h0 + [q1]);
        run.result.Success? <==>
          described.Success? && ContractRequestFor(endPointUrl, offer, described.value).Success? &&
          connectorApi.respond(h0 + [q1] + [ContractRequestFor(endPointUrl, offer, described.value).value]).Success?
    {
    }

    /** `log` continues `h0` with the two requests of a negotiation for
        `offer`: the contract offer, then the contract request built from its
        answer, which the connector accepts. */
    ghost predicate NegotiatesOffer(endPointUrl: string, offer: OfferedResource, h0: seq<Request>, log: seq<Request>)
    {
      var n := |h0|;
      |log| == n + 2 && log[..n] == h0 && log[n] == ContractOfferQuery(endPointUrl, offer.contractOfferId) &&
      var described := connectorApi.respond(log[..n + 1]);
      described.Success? && ContractRequestFor(endPointUrl, offer, described.value).Success? &&
      log[n + 1] == ContractRequestFor(endPointUrl, offer, described.value).value &&
      connectorApi.respond(log).Success?
    }

    /** `getFirstArtifact` takes six requests. The first four read the
        catalogue and negotiate its first offer: the connector description,
        the first catalogue it names, the contract offer of the catalogue's
        first resource, and the contract request built from that offer. */
    lemma FirstArtifactProtocol(endPointUrl: string, h0: seq<Request>)
      ensures var run := FirstArtifactRun(endPointUrl, h0);
        run.result.Success? ==>
          |run.log| == |h0| + 6 && NegotiatesFirstOffer(endPointUrl, h0, run.log[..|h0| + 4])
    {
      var run := FirstArtifactRun(endPointUrl, h0);
      if run.result.Success? {
        var offers, contract, artifacts := FirstArtifactStages(endPointUrl, h0);
        OffersThenNegotiation(endPointUrl, h0, offers, contract);
        assert run.log[..|h0| + 4] == contract.log;
      }
    }

    /** `log` continues `h0` with the four requests that read the catalogue
        and negotiate its first offer, each made from the answer before it. */
    ghost predicate NegotiatesFirstOffer(endPointUrl: string, h0: seq<Request>, log: seq<Request>)
    {
      var n := |h0|;
      |log| == n + 4 && ReadsCatalogue(endPointUrl, h0, log[..n + 2]) &&
      var offers := OffersOf(idFromUrl, connectorApi.respond(log[..n + 2]).value);
      offers.Success? && offers.value != [] &&
      NegotiatesOffer(endPointUrl, offers.value[0], log[..n + 2], log)
    }

    /** Reading the offers and negotiating the first one. */
    lemma OffersThenNegotiation(endPointUrl: string, h0: seq<Request>,
                                offers: Run<seq<OfferedResource>>, contract: Run<ContractAgreement>)
      requires offers == GetAllOffersRun(endPointUrl, h0) && offers.result.Success? && offers.result.value != []
      requires contract == NegotiateContractRun(endPointUrl, offers.result.value[0], offers.log)
      requires contract.result.Success?
      ensures NegotiatesFirstOffer(endPointUrl, h0, contract.log)
    {
      assert ReadsCatalogue(endPointUrl, h0, offers.log) &&
             offers.result == OffersOf(idFromUrl, connectorApi.respond(offers.log).value) by {
        AllOffersProtocol(endPointUrl, h0);
      }
      assert NegotiatesOffer(endPointUrl, offers.result.value[0], offers.log, contract.log) by {
        NegotiationProtocol(endPointUrl, offers.result.value[0], offers.log);
      }
      assert contract.log[..|h0| + 2] == offers.log;
    }

    /** The last two of the six requests of `getFirstArtifact` list the
        artifacts of the agreement the contract response names, then download
        the first of them, without forcing a download or forwarding it; the
        downloaded data is returned unchanged. */
    lemma FirstArtifactDownloads(endPointUrl: string, h0: seq<Request>)
      ensures var run := FirstArtifactRun(endPointUrl, h0);
        run.result.Success? ==>
          |run.log| == |h0| + 6 && DownloadsFirstArtifact(run.log[..|h0| + 4], run.log) &&
          connectorApi.respond(run.log) == Success(run.result.value)
    {
      var run := FirstArtifactRun(endPointUrl, h0);
      if run.result.Success? {
        var offers, contract, artifacts := FirstArtifactStages(endPointUrl, h0);
        var n := |h0|;
        assert |offers.log| == n + 2 by {
          AllOffersProtocol(endPointUrl, h0);
        }
        assert |contract.log| == n + 4 && connectorApi.respond(contract.log).Success? &&
               contract.result.value.contractId == idFromUrl(selfRefId(connectorApi.respond(contract.log).value)) by {
          NegotiationProtocol(endPointUrl, offers.result.value[0], offers.log);
        }
        ArtifactsThenDownload(contract, artifacts, run);
        assert run.log[..n + 4] == contract.log;
      }
    }

    /** `getFirstArtifact` returns data whenever each stage succeeds and
        neither the offers nor the agreement's artifacts are empty; an empty
        list is an error before the next request. */
    lemma FirstArtifactSucceeds(endPointUrl: string, h0: seq<Request>)
      ensures var run := FirstArtifactRun(endPointUrl, h0);
        var offers := GetAllOffersRun(endPointUrl, h0);
        (run.result.Success? <==>
          offers.result.Success? && offers.result.value != [] &&
          var contract := NegotiateContractRun(endPointUrl, offers.result.value[0], offers.log);
          contract.result.Success? &&
          var artifacts := ArtifactsForAgreementRun(contract.result.value.contractId, contract.log);
          artifacts.result.Success? && artifacts.result.value != [] &&
          connectorApi.respond(artifacts.log + [DownloadQuery(artifacts.result.value[0].url, None, None)]).Success?) &&
        (offers.result == Success([]) ==> run == Run(offers.log, Failure(Malformed(FirstElement))))
    {
    }

    /** Listing the agreement's artifacts and downloading the first one. */
    lemma ArtifactsThenDownload(contract: Run<ContractAgreement>, artifacts: Run<seq<ArtifactReference>>,
                                download: Run<Json>)
      requires contract.result.Success? && connectorApi.respond(contract.log).Success?
      requires contract.result.value.contractId == idFromUrl(selfRefId(connectorApi.respond(contract.log).value))
      requires artifacts == ArtifactsForAgreementRun(contract.result.value.contractId, contract.log)
      requires artifacts.result.Success? && artifacts.result.value != []
      requires download == DownloadArtifactRun(artifacts.result.value[0].url, None, None, artifacts.log)
      ensures DownloadsFirstArtifact(contract.log, download.log)
    {
      var n := |contract.log|;
      assert download.log[..n] == contract.log;
      assert download.log[..n + 1] == artifacts.log;
    }

    /** `log` continues `agreed` with two requests: the artifacts of the
        agreement named by the last answer, then the data of the first of them. */
    ghost predicate DownloadsFirstArtifact(agreed: seq<Request>, log: seq<Request>)
    {
      var n := |agreed|;
      |log| == n + 2 && log[..n] == agreed &&
      var contract := connectorApi.respond(agreed);
      var artifacts := connectorApi.respond(log[..n + 1]);
      contract.Success? && log[n] == AgreementArtifactsQuery(idFromUrl(selfRefId(contract.value))) &&
      artifacts.Success? && ArtifactRefsOf(artifacts.value).Success? &&
      ArtifactRefsOf(artifacts.value).value != [] &&
      log[n + 1] == DownloadQuery(ArtifactRefsOf(artifacts.value).value[0].url, None, None)
    }

    /** The four stages of a successful `getFirstArtifact`, each started on the
        log the one before it left. */
    lemma FirstArtifactStages(endPointUrl: string, h0: seq<Request>)
      returns (offers: Run<seq<OfferedResource>>, contract: Run<ContractAgreement>,
               artifacts: Run<seq<ArtifactReference>>)
      requires FirstArtifactRun(endPointUrl, h0).result.Success?
      ensures offers == GetAllOffersRun(endPointUrl, h0) && offers.result.Success? && offers.result.value != []
      ensures contract == NegotiateContractRun(endPointUrl, offers.result.value[0], offers.log)
      ensures contract.result.Success?
      ensures artifacts == ArtifactsForAgreementRun(contract.result.value.contractId, contract.log)
      ensures artifacts.result.Success? && artifacts.result.value != []
      ensures FirstArtifactRun(endPointUrl, h0) ==
              DownloadArtifactRun(artifacts.result.value[0].url, None, None, artifacts.log)
    {
      offers := GetAllOffersRun(endPointUrl, h0);
      contract := NegotiateContractRun(endPointUrl, offers.result.value[0], offers.log);
      artifacts := ArtifactsForAgreementRun(contract.result.value.contractId, contract.log);
    }

    /** Without a route nothing is sent. */
    lemma TransferNeedsRoute(contractAgreementId: string, routeId: Option<string>, h0: seq<Request>)
      requires !RouteSet(routeId)
      ensures TransferRun(contractAgreementId, routeId, h0) == Run(h0, Failure(Thrown(NoRouteMessage)))
    {
    }

    /** With a route the agreement's artifacts are looked up, and only the
        first of them is forwarded to that route. */
    lemma TransferForwardsFirstArtifact(contractAgreementId: string, routeId: Option<string>, h0: seq<Request>)
      requires RouteSet(routeId)
      ensures var run := TransferRun(contractAgreementId, routeId, h0);
        var artifacts := ArtifactsForAgreementRun(contractAgreementId, h0);
        |run.log| > |h0| && run.log[|h0|] == AgreementArtifactsQuery(contractAgreementId) &&
        run.result != Failure(Thrown(NoRouteMessage)) &&
        (run.result.Success? <==>
          artifacts.result.Success? && artifacts.result.value != [] && connectorApi.respond(run.log).Success?) &&
        (artifacts.result.Success? && artifacts.result.value != [] ==>
          |run.log| == |h0| + 2 &&
          run.log[|h0| + 1] ==
            GetDataQuery(idFromUrl(artifacts.result.value[0].url), Some(true), None, Some([routeId.value])))
    {
      var artifacts := ArtifactsForAgreementRun(contractAgreementId, h0);
      var run := TransferRun(contractAgreementId, routeId, h0);
      assert run.log[|h0|] == artifacts.log[|h0|];
    }

    /** The receiver keeps the route id as soon as the route exists, before
        the route is connected to the endpoint; the route is then connected to
        the endpoint just created, and the id kept is that route's self link. */
    lemma ReceiverStoresRouteFirst(url: string, h0: seq<Request>)
      ensures var run := ReceiverRun(url, h0);
        var n := |h0|;
        |run.log| > n && run.log[n] == CreateEndpoint(url, GenericEndpoint) &&
        (ReceiverRouteId(url, h0).Some? <==> |run.log| == n + 3) &&
        (run.result.Success? <==> ReceiverRouteId(url, h0).Some? && connectorApi.respond(run.log).Success?) &&
        (ReceiverRouteId(url, h0).Some? ==>
          run.log[n + 1] == CreateRoute(DatasinkRouteTitle, Camel) &&
          connectorApi.respond(run.log[..n + 1]).Success? && connectorApi.respond(run.log[..n + 2]).Success? &&
          ReceiverRouteId(url, h0) == Some(selfRefId(connectorApi.respond(run.log[..n + 2]).value)) &&
          run.log[n + 2] == CreateLastEndpoint(ReceiverRouteId(url, h0).value,
                                               selfRefId(connectorApi.respond(run.log[..n + 1]).value)))
    {
      var run := ReceiverRun(url, h0);
      if ReceiverRouteId(url, h0).Some? {
        assert run.log[..|h0| + 1] == h0 + [CreateEndpoint(url, GenericEndpoint)];
        assert run.log[..|h0| + 2] == h0 + [CreateEndpoint(url, GenericEndpoint)] + [CreateRoute(DatasinkRouteTitle, Camel)];
      }
    }

    /** Once a receiver route with a non-empty id is stored, a later transfer
        goes to the connector instead of failing for want of a route. */
    lemma ReceiverEnablesTransfer(url: string, h0: seq<Request>, contractAgreementId: string, h1: seq<Request>)
      requires ReceiverRouteId(url, h0).Some? && ReceiverRouteId(url, h0).value != ""
      ensures var run := TransferRun(contractAgreementId, ReceiverRouteId(url, h0), h1);
        |run.log| > |h1| && run.log[|h1|] == AgreementArtifactsQuery(contractAgreementId) &&
        run.result != Failure(Thrown(NoRouteMessage))
    {
      TransferForwardsFirstArtifact(contractAgreementId, ReceiverRouteId(url, h0), h1);
    }

    /** An endpoint's artifact is reached through a new route that starts at
        the endpoint's own link; the artifact's access URL is the route's link. */
    lemma ArtifactForEndpointProtocol(artifact: Artifact, endpoint: Json, h0: seq<Request>)
      ensures var run := ArtifactForEndpointRun(artifact, endpoint, h0);
        var n := |h0|;
        |run.log| > n && run.log[n] == CreateRoute(artifact.name + RouteTitleSuffix, Camel) &&
        (run.result.Success? ==>
          var route := connectorApi.respond(run.log[..n + 1]);
          route.Success? && |run.log| == n + 3 &&
          run.log[n + 1] == CreateStartEndpoint(selfRefId(route.value), TextAt(endpoint, SelfHrefPath).value) &&
          run.log[n + 2] == CreateArtifact(artifact.name, artifact.description, TextAt(route.value, SelfHrefPath)))
    {
      var run := ArtifactForEndpointRun(artifact, endpoint, h0);
      var q1 := CreateRoute(artifact.name + RouteTitleSuffix, Camel);
      assert run.log[..|h0| + 1] == h0 + [q1] by {
        var route := connectorApi.Call(h0, q1);
        assert route.log <= run.log;
      }
    }

    /** Polling reads the source on a timer: no endpoint and no data source
        are created, and an API key plays no part. */
    lemma PollingIgnoresCredentials(artifact: Artifact, endpointUrl: string, mimeType: string,
                                    apiKey: Option<ApiKey>, basicAuth: Option<BasicAuth>,
                                    resourcePolling: Option<ResourcePolling>, h0: seq<Request>)
      requires resourcePolling.Some?
      ensures var run := HttpEndpointArtifactRun(artifact, endpointUrl, mimeType, apiKey, basicAuth,
                                                resourcePolling, h0);
        run == HttpEndpointArtifactRun(artifact, endpointUrl, mimeType, None, basicAuth, resourcePolling, h0) &&
        |run.log| > |h0| && run.log[|h0|] == CreateArtifact(artifact.name, None, None) &&
        (var created := connectorApi.respond(h0 + [run.log[|h0|]]);
         run.result.Success? <==>
           created.Success? &&
           connectorApi.respond(h0 + [run.log[|h0|]] +
             [AddCamelRoute(idFromUrl(selfRefId(created.value)), endpointUrl, resourcePolling.value.delay,
                            resourcePolling.value.period, mimeType, basicAuth)]).Success?) &&
        (run.result.Success? ==>
          var created := connectorApi.respond(h0 + [run.log[|h0|]]);
          created.Success? && run.result.value == selfRefId(created.value) && |run.log| == |h0| + 2 &&
          run.log[|h0| + 1] ==
            AddCamelRoute(idFromUrl(selfRefId(created.value)), endpointUrl, resourcePolling.value.delay,
                          resourcePolling.value.period, mimeType, basicAuth))
    {
    }

    /** Without polling, giving both credentials is refused once the endpoint
        exists, before any data source is created. */
    lemma BothCredentialsRejected(artifact: Artifact, endpointUrl: string, mimeType: string,
                                  apiKey: Option<ApiKey>, basicAuth: Option<BasicAuth>,
                                  resourcePolling: Option<ResourcePolling>, h0: seq<Request>)
      requires resourcePolling.None? && apiKey.Some? && basicAuth.Some?
      ensures var run := HttpEndpointArtifactRun(artifact, endpointUrl, mimeType, apiKey, basicAuth,
                                                resourcePolling, h0);
        var q := CreateEndpoint(endpointUrl, GenericEndpoint);
        run.log == h0 + [q] &&
        run.result == if connectorApi.respond(h0 + [q]).Success? then Failure(Thrown(BothAuthMessage))
                      else Failure(Remote(connectorApi.respond(h0 + [q]).error))
    {
    }

    /** Credentials give at most one data source: none without credentials,
        and otherwise one that is created and then linked to the endpoint. */
    lemma CredentialsProtocol(endpoint: Json, apiKey: Option<ApiKey>, basicAuth: Option<BasicAuth>,
                              h0: seq<Request>)
      ensures var run := CredentialsRun(endpoint, apiKey, basicAuth, h0);
        var source := DataSourceFor(apiKey, basicAuth);
        (run.result.Success? <==>
           source.Success? &&
           (source.value.None? ||
            (connectorApi.respond(h0 + [CreateDataSource(source.value.value)]).Success? &&
             connectorApi.respond(run.log).Success?))) &&
        (source.Failure? || source.value.None? ==> run.log == h0) &&
        (run.result.Success? && source.value.Some? ==>
          var q := CreateDataSource(source.value.value);
          |run.log| == |h0| + 2 && run.log[..|h0| + 1] == h0 + [q] &&
          run.log[|h0| + 1] == LinkDataSource(selfRefId(endpoint), selfRefId(connectorApi.respond(h0 + [q]).value)))
    {
      var run := CredentialsRun(endpoint, apiKey, basicAuth, h0);
      var source := DataSourceFor(apiKey, basicAuth);
      if source.Success? && source.value.Some? {
        var q := CreateDataSource(source.value.value);
        var dataSource := connectorApi.Call(h0, q);
        if dataSource.result.Success? {
          assert run.log == h0 + [q] + [run.log[|h0| + 1]];
          assert run.log[..|h0| + 1] == h0 + [q];
        }
      }
    }

    /** Without polling, a single credential creates exactly one data source,
        linked to the new endpoint, before the artifact's route is created. */
    lemma OneCredentialLinksDataSource(artifact: Artifact, endpointUrl: string, mimeType: string,
                                       apiKey: Option<ApiKey>, basicAuth: Option<BasicAuth>,
                                       resourcePolling: Option<ResourcePolling>, h0: seq<Request>)
      requires resourcePolling.None? && (apiKey.Some? != basicAuth.Some?)
      ensures var run := HttpEndpointArtifactRun(artifact, endpointUrl, mimeType, apiKey, basicAuth,
                                                resourcePolling, h0);
        var n := |h0|;
        run.result.Success? ==>
          var endpoint := connectorApi.respond(run.log[..n + 1]);
          var dataSource := connectorApi.respond(run.log[..n + 2]);
          endpoint.Success? && dataSource.Success? && |run.log| == n + 6 &&
          run.log[n] == CreateEndpoint(endpointUrl, GenericEndpoint) &&
          run.log[n + 1] == CreateDataSource(DataSourceFor(apiKey, basicAuth).value.value) &&
          run.log[n + 2] == LinkDataSource(selfRefId(endpoint.value), selfRefId(dataSource.value)) &&
          run.log[n + 3] == CreateRoute(artifact.name + RouteTitleSuffix, Camel)
    {
      var run := HttpEndpointArtifactRun(artifact, endpointUrl, mimeType, apiKey, basicAuth, resourcePolling, h0);
      if run.result.Success? {
        var endpoint, linked, created := EndpointStages(artifact, endpointUrl, mimeType, apiKey, basicAuth,
                                                        resourcePolling, h0);
        EndpointThenDataSource(artifact, endpointUrl, apiKey, basicAuth, h0, endpoint, linked, created);
      }
    }

    /** Without polling, `createHttpEndpointArtifact` returns an id whenever the
        endpoint is created, its credentials are handled and the artifact is
        created for it; the id is the created artifact's self link. */
    lemma EndpointArtifactSucceeds(artifact: Artifact, endpointUrl: string, mimeType: string,
                                   apiKey: Option<ApiKey>, basicAuth: Option<BasicAuth>,
                                   resourcePolling: Option<ResourcePolling>, h0: seq<Request>)
      requires resourcePolling.None?
      ensures var run := HttpEndpointArtifactRun(artifact, endpointUrl, mimeType, apiKey, basicAuth,
                                                resourcePolling, h0);
        var endpoint := connectorApi.Call(h0, CreateEndpoint(endpointUrl, GenericEndpoint));
        (run.result.Success? <==>
          endpoint.result.Success? &&
          var linked := CredentialsRun(endpoint.result.value, apiKey, basicAuth, endpoint.log);
          linked.result.Success? &&
          ArtifactForEndpointRun(Artifact(artifact.name, None), endpoint.result.value, linked.log).result.Success?) &&
        (run.result.Success? ==>
          connectorApi.respond(run.log).Success? && run.result.value == selfRefId(connectorApi.respond(run.log).value))
    {
    }

    /** The three stages of a successful `createHttpEndpointArtifact` without
        polling, each started on the log the one before it left. */
    lemma EndpointStages(artifact: Artifact, endpointUrl: string, mimeType: string,
                         apiKey: Option<ApiKey>, basicAuth: Option<BasicAuth>,
                         resourcePolling: Option<ResourcePolling>, h0: seq<Request>)
      returns (endpoint: Run<Json>, linked: Run<()>, created: Run<Json>)
      requires resourcePolling.None?
      requires HttpEndpointArtifactRun(artifact, endpointUrl, mimeType, apiKey, basicAuth, resourcePolling, h0)
                 .result.Success?
      ensures endpoint == connectorApi.Call(h0, CreateEndpoint(endpointUrl, GenericEndpoint))
      ensures endpoint.result.Success?
      ensures linked == CredentialsRun(endpoint.result.value, apiKey, basicAuth, endpoint.log)
      ensures linked.result.Success?
      ensures created == ArtifactForEndpointRun(Artifact(artifact.name, None), endpoint.result.value, linked.log)
      ensures created.result.Success?
      ensures HttpEndpointArtifactRun(artifact, endpointUrl, mimeType, apiKey, basicAuth, resourcePolling, h0).log
              == created.log
    {
      endpoint := connectorApi.Call(h0, CreateEndpoint(endpointUrl, GenericEndpoint));
      linked := CredentialsRun(endpoint.result.value, apiKey, basicAuth, endpoint.log);
      created := ArtifactForEndpointRun(Artifact(artifact.name, None), endpoint.result.value, linked.log);
    }

    /** Creating the endpoint, then one data source linked to it, then the
        artifact's route. */
    lemma EndpointThenDataSource(artifact: Artifact, endpointUrl: string,
                                 apiKey: Option<ApiKey>, basicAuth: Option<BasicAuth>, h0: seq<Request>,
                                 endpoint: Run<Json>, linked: Run<()>, created: Run<Json>)
      requires apiKey.Some? != basicAuth.Some?
      requires endpoint == connectorApi.Call(h0, CreateEndpoint(endpointUrl, GenericEndpoint))
      requires endpoint.result.Success?
      requires linked == CredentialsRun(endpoint.result.value, apiKey, basicAuth, endpoint.log)
      requires linked.result.Success?
      requires created == ArtifactForEndpointRun(Artifact(artifact.name, None), endpoint.result.value, linked.log)
      requires created.result.Success?
      ensures var n := |h0|;
        var log := created.log;
        var endpointDoc := connectorApi.respond(log[..n + 1]);
        var dataSource := connectorApi.respond(log[..n + 2]);
        endpointDoc.Success? && dataSource.Success? && |log| == n + 6 &&
        log[n] == CreateEndpoint(endpointUrl, GenericEndpoint) &&
        log[n + 1] == CreateDataSource(DataSourceFor(apiKey, basicAuth).value.value) &&
        log[n + 2] == LinkDataSource(selfRefId(endpointDoc.value), selfRefId(dataSource.value)) &&
        log[n + 3] == CreateRoute(artifact.name + RouteTitleSuffix, Camel)
    {
      var n := |h0|;
      var q1 := CreateEndpoint(endpointUrl, GenericEndpoint);
      var q2 := CreateDataSource(DataSourceFor(apiKey, basicAuth).value.value);
      CredentialsProtocol(endpoint.result.value, apiKey, basicAuth, endpoint.log);
      ArtifactForEndpointProtocol(Artifact(artifact.name, None), endpoint.result.value, linked.log);
      var log := created.log;
      assert linked.log[..n + 2] == h0 + [q1] + [q2];
      assert log[..n + 3] == linked.log && log[n + 2] == linked.log[n + 2];
      assert h0 + [q1] + [q2] == h0 + [q1, q2];
      assert log[..n + 2] == h0 + [q1, q2];
      assert log[..n + 1] == h0 + [q1];
      assert connectorApi.respond(log[..n + 1]).value == endpoint.result.value;
    }

    /** Without polling and without credentials no data source is created. */
    lemma NoCredentialsNoDataSource(artifact: Artifact, endpointUrl: string, mimeType: string,
                                    resourcePolling: Option<ResourcePolling>, h0: seq<Request>)
      requires resourcePolling.None?
      ensures var run := HttpEndpointArtifactRun(artifact, endpointUrl, mimeType, None, None, resourcePolling, h0);
        run.result.Success? ==>
          |run.log| == |h0| + 4 && run.log[|h0|] == CreateEndpoint(endpointUrl, GenericEndpoint) &&
          run.log[|h0| + 1] == CreateRoute(artifact.name + RouteTitleSuffix, Camel)
    {
      var run := HttpEndpointArtifactRun(artifact, endpointUrl, mimeType, None, None, resourcePolling, h0);
      if run.result.Success? {
        var endpoint := connectorApi.Call(h0, CreateEndpoint(endpointUrl, GenericEndpoint));
        ArtifactForEndpointProtocol(Artifact(artifact.name, None), endpoint.result.value, endpoint.log);
      }
    }

    // The operations.

    method GetAllOffers(endPointUrl: string) returns (r: Result<seq<OfferedResource>, Error>)
      modifies connectorApi
      ensures Run(connectorApi.requests, r) == GetAllOffersRun(endPointUrl, old(connectorApi.requests))
    {
      var connectorDescription :- connectorApi.Send(ConnectorDescriptionQuery(endPointUrl));
      var catalogId :- FirstCatalogId(connectorDescription);
      var catalogDescription :- connectorApi.Send(CatalogQuery(endPointUrl, catalogId));
      r := OffersOf(idFromUrl, catalogDescription);
    }

    method GetContractOfferDescription(endPointUrl: string, contractOfferId: string) returns (r: Result<Json, Error>)
      modifies connectorApi
      ensures Run(connectorApi.requests, r) ==
              ContractOfferDescriptionRun(endPointUrl, contractOfferId, old(connectorApi.requests))
    {
      r := connectorApi.Send(ContractOfferQuery(endPointUrl, contractOfferId));
    }

    method NegotiateContract(endPointUrl: string, offeredResource: OfferedResource)
      returns (r: Result<ContractAgreement, Error>)
      modifies connectorApi
      ensures Run(connectorApi.requests, r) ==
              NegotiateContractRun(endPointUrl, offeredResource, old(connectorApi.requests))
    {
      var contractOfferDescription :- GetContractOfferDescription(endPointUrl, offeredResource.contractOfferId);
      var request :- ContractRequestFor(endPointUrl, offeredResource, contractOfferDescription);
      var contractResponse :- connectorApi.Send(request);
      r := Success(AgreementOf(contractResponse));
    }

    method GetArtifactsForAgreement(contractId: string) returns (r: Result<seq<ArtifactReference>, Error>)
      modifies connectorApi
      ensures Run(connectorApi.requests, r) == ArtifactsForAgreementRun(contractId, old(connectorApi.requests))
    {
      var artifactsForAgreement :- connectorApi.Send(AgreementArtifactsQuery(contractId));
      r := ArtifactRefsOf(artifactsForAgreement);
    }

    method DownloadArtifact(artifactUrl: string, forceDownload: Option<bool>, forwardToRouteIds: Option<seq<string>>)
      returns (r: Result<Json, Error>)
      modifies connectorApi
      ensures Run(connectorApi.requests, r) ==
              DownloadArtifactRun(artifactUrl, forceDownload, forwardToRouteIds, old(connectorApi.requests))
    {
      r := connectorApi.Send(DownloadQuery(artifactUrl, forceDownload, forwardToRouteIds));
    }

    method GetFirstArtifact(endPointUrl: string) returns (r: Result<Json, Error>)
      modifies connectorApi
      ensures Run(connectorApi.requests, r) == FirstArtifactRun(endPointUrl, old(connectorApi.requests))
    {
      var offers :- GetAllOffers(endPointUrl);
      if offers == [] {
        return Failure(Malformed(FirstElement));
      }
      var contract :- NegotiateContract(endPointUrl, offers[0]);
      var artifactsForAgreement :- GetArtifactsForAgreement(contract.contractId);
      if artifactsForAgreement == [] {
        return Failure(Malformed(FirstElement));
      }
      r := DownloadArtifact(artifactsForAgreement[0].url, None, None);
    }

    method TransferArtifactsForAgreement(contractAgreementId: string) returns (r: Result<(), Error>)
      modifies connectorApi
      ensures Run(connectorApi.requests, r) ==
              TransferRun(contractAgreementId, httpRouteId, old(connectorApi.requests))
    {
      if !RouteSet(httpRouteId) {
        return Failure(Thrown(NoRouteMessage));
      }
      var agreementArtifacts :- GetArtifactsForAgreement(contractAgreementId);
      if agreementArtifacts == [] {
        return Failure(Malformed(FirstElement));
      }
      var downloaded :- DownloadArtifact(agreementArtifacts[0].url, Some(true), Some([httpRouteId.value]));
      r := Success(());
    }

    method SetHttpDataReceiver(url: string) returns (r: Result<(), Error>)
      modifies this, connectorApi
      ensures Run(connectorApi.requests, r) == ReceiverRun(url, old(connectorApi.requests))
      ensures httpRouteId ==
              if ReceiverRouteId(url, old(connectorApi.requests)).Some?
              then ReceiverRouteId(url, old(connectorApi.requests)) else old(httpRouteId)
    {
      var endpoint :- connectorApi.Send(CreateEndpoint(url, GenericEndpoint));
      var route :- connectorApi.Send(CreateRoute(DatasinkRouteTitle, Camel));
      httpRouteId := Some(selfRefId(route));
      var linked := connectorApi.Send(CreateLastEndpoint(selfRefId(route), selfRefId(endpoint)));
      r := if linked.Success? then Success(()) else Failure(linked.error);
    }

    method CreateArtifactForEndpoint(artifact: Artifact, endpoint: Json) returns (r: Result<Json, Error>)
      modifies connectorApi
      ensures Run(connectorApi.requests, r) == ArtifactForEndpointRun(artifact, endpoint, old(connectorApi.requests))
    {
      var route :- connectorApi.Send(CreateRoute(artifact.name + RouteTitleSuffix, Camel));
      var routeId := selfRefId(route);
      var endpointHref :- Need(TextAt(endpoint, SelfHrefPath), SelfHrefPath);
      var started :- connectorApi.Send(CreateStartEndpoint(routeId, endpointHref));
      var routeHref :- Need(TextAt(route, SelfHrefPath), SelfHrefPath);
      r := connectorApi.Send(CreateArtifact(artifact.name, artifact.description, Some(routeHref)));
    }

    /** Sends the polling route that fetches `url` into the artifact; the
        route's XML text is not part of this model. */
    method CreateCustomCamelRoute(artifactId: string, url: string, delay: int, period: int, mimeType: string,
                                  basicAuth: Option<BasicAuth>) returns (r: Result<(), Error>)
      modifies connectorApi
      ensures Run(connectorApi.requests, r) ==
              CamelRouteRun(artifactId, url, delay, period, mimeType, basicAuth, old(connectorApi.requests))
    {
      var added := connectorApi.Send(AddCamelRoute(artifactId, url, delay, period, mimeType, basicAuth));
      r := if added.Success? then Success(()) else Failure(added.error);
    }

    method CreateHttpEndpointArtifact(artifact: Artifact, endpointUrl: string, mimeType: string,
                                      apiKey: Option<ApiKey>, basicAuth: Option<BasicAuth>,
                                      resourcePolling: Option<ResourcePolling>) returns (r: Result<string, Error>)
      modifies connectorApi
      ensures Run(connectorApi.requests, r) ==
              HttpEndpointArtifactRun(artifact, endpointUrl, mimeType, apiKey, basicAuth, resourcePolling,
                                      old(connectorApi.requests))
    {
      var createdArtifact: Json;
      if resourcePolling.Some? {
        createdArtifact :- connectorApi.Send(CreateArtifact(artifact.name, None, None));
        var routed :- CreateCustomCamelRoute(idFromUrl(selfRefId(createdArtifact)), endpointUrl,
                                             resourcePolling.value.delay, resourcePolling.value.period,
                                             mimeType, basicAuth);
      } else {
        var endpoint :- connectorApi.Send(CreateEndpoint(endpointUrl, GenericEndpoint));
        var dataSourceDesc :- DataSourceFor(apiKey, basicAuth);
        if dataSourceDesc.Some? {
          var dataSource :- connectorApi.Send(CreateDataSource(dataSourceDesc.value));
          var linked :- connectorApi.Send(LinkDataSource(selfRefId(endpoint), selfRefId(dataSource)));
        }
        createdArtifact :- CreateArtifactForEndpoint(Artifact(artifact.name, None), endpoint);
      }
      r := Success(selfRefId(createdArtifact));
    }
  }
}
