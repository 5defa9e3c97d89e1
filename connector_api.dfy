/** The remote connector's REST API as the controller sees it: every call is a
    request appended to a log, and its response is an arbitrary (but fixed)
    function of the whole log so far. Nothing about the remote side's own
    behaviour is assumed. */
module ConnectorApi {
  import opened Wrappers
  import opened Json
  import opened Errors

  /** How a route is deployed (`RouteDesc.deploy.CAMEL`). */
  datatype Deploy = Camel

  datatype BasicAuth = BasicAuth(username: string, password: string)

  /** The credential a data source is created with (`apiKey` or `basicAuth`). */
  datatype Credential =
    | ApiKeyCredential(key: string, value: string)
    | BasicAuthCredential(key: string, value: string)

  datatype DataSourceDesc = DataSourceDesc(credential: Credential, sourceType: string)

  /** One call into the connector API, with the arguments the controller passes. */
  datatype Request =
    | SendIdsDescription(recipient: string, elementId: Option<string>)
    | SendContractRequest(recipient: string, resourceIds: seq<string>, artifactIds: seq<string>,
                          download: bool, rules: seq<Json>)
    | AgreementArtifactsQuery(agreementId: string)
    | GetDataQuery(artifactId: string, forceDownload: Option<bool>, agreementUri: Option<string>,
                   routeIds: Option<seq<string>>)
    | CreateEndpoint(location: string, endpointType: string)
    | CreateRoute(title: string, deploy: Deploy)
    | CreateStartEndpoint(routeId: string, endpointUrl: string)
    | CreateLastEndpoint(routeId: string, endpointId: string)
    | CreateDataSource(dataSource: DataSourceDesc)
    | LinkDataSource(endpointId: string, dataSourceId: string)
    | CreateArtifact(title: string, description: Option<string>, accessUrl: Option<string>)
    | AddCamelRoute(artifactId: string, url: string, delay: int, period: int,
                    mimeType: string, basicAuth: Option<BasicAuth>)

  /** The requests an operation leaves in the log and what it returns. */
  datatype Run<+T> = Run(log: seq<Request>, result: Result<T, Error>)

  /** A run that ends with the error `e` after producing `log`. */
  function Fail<T>(log: seq<Request>, e: Error): (run: Run<T>)
    ensures run.log == log && run.result == Failure(e)
  {
    Run(log, Failure(e))
  }

  /** A run whose response is awaited and then discarded. */
  function Done(run: Run<Json>): (done: Run<()>)
    ensures done.log == run.log
    ensures done.result.Success? <==> run.result.Success?
    ensures done.result.Failure? ==> done.result.error == run.result.error
  {
    match run.result
    case Success(_) => Run(run.log, Success(()))
    case Failure(e) => Run(run.log, Failure(e))
  }

  class Connector {
    /** Every request sent so far, oldest first. */
    var requests: seq<Request>
    /** The connector's answer to the last request of a log: a document, or
        the error document it reports. */
    const respond: seq<Request> -> Result<Json, Json>

    constructor (respond: seq<Request> -> Result<Json, Json>)
      ensures requests == [] && this.respond == respond
    {
      requests := [];
      this.respond := respond;
    }

    /** Sending `q` after the log `h`. */
    function Call(h: seq<Request>, q: Request): (run: Run<Json>)
      ensures run.log == h + [q]
      ensures run.result.Success? <==> respond(h + [q]).Success?
      ensures run.result.Success? ==> run.result.value == respond(h + [q]).value
      ensures run.result.Failure? ==> run.result.error == Remote(respond(h + [q]).error)
    {
      match respond(h + [q])
      case Success(d) => Run(h + [q], Success(d))
      case Failure(p) => Run(h + [q], Failure(Remote(p)))
    }

    method Send(q: Request) returns (r: Result<Json, Error>)
      modifies this
      ensures Run(requests, r) == Call(old(requests), q)
    {
      var run := Call(requests, q);
      requests := run.log;
      r := run.result;
    }
  }
}
