/** lib/core/httpServer.ts: the routing of the watch-mode server. A request is
    answered from its url alone (the method and headers are never looked at)
    and from what the merge cache holds. Listening, sockets and the JSON text
    of the bodies are outside the model: a response is its status, its
    content type and the fields of its body. */
module HttpServer {
  import opened Wrappers
  import MergeCache

  const Json := "application/json"
  const PlainText := "text/plain; charset=utf-8"

  /** The bodies the server sends: `{error: 'Merge not ready yet'}`, the merged
      text, the health report, the not-found report. */
  datatype Body =
    | NotReady
    | MergedText(text: string)
    | Health(status: string, project: string, endpoint: string, mergeReady: bool)
    | NotFound(error: string, availableEndpoints: seq<string>)

  datatype Response = Response(status: nat, contentType: string, body: Body)

  /** The merge endpoint's own url, `/<projectName>`. */
  function Endpoint(projectName: string): string
  {
    "/" + projectName
  }

  /** `handleMergeEndpoint`: `!content` rejects both null and the empty string. */
  function MergeEndpoint(content: Option<string>): (r: Response)
    ensures r.status == 503 <==> content == None || content == Some("")
    ensures r.status == 503 ==> r == Response(503, Json, NotReady)
    ensures r.status != 503 ==> r == Response(200, PlainText, MergedText(content.value))
  {
    if content == None || content.value == "" then Response(503, Json, NotReady)
    else Response(200, PlainText, MergedText(content.value))
  }

  /** `handleHealthEndpoint`: ready as soon as anything, even "", is cached. */
  function HealthEndpoint(projectName: string, content: Option<string>): (r: Response)
    ensures r.status == 200 && r.contentType == Json
    ensures r.body.Health? && r.body.project == projectName
    ensures r.body.mergeReady <==> content.Some?
  {
    Response(200, Json, Health("ok", projectName, Endpoint(projectName), content != None))
  }

  /** `handleNotFound`: the three endpoints, the merge endpoint last. */
  function NotFoundResponse(projectName: string): (r: Response)
    ensures r.status == 404 && r.contentType == Json
    ensures r.body.NotFound? && r.body.availableEndpoints == ["/", "/health", Endpoint(projectName)]
  {
    Response(404, Json, NotFound("Not found", ["/", "/health", Endpoint(projectName)]))
  }

  /** `req.url || ''`. */
  function UrlText(url: Option<string>): string
  {
    if url == None then "" else url.value
  }

  predicate IsProjectUrl(u: string, projectName: string)
  {
    u == Endpoint(projectName) || u == Endpoint(projectName) + "/"
  }

  /** `handleRequest`: the project's url, with or without a trailing slash, is
      tried first, then `/health` and `/`, and everything else is not found. */
  function Route(url: Option<string>, projectName: string, content: Option<string>): (r: Response)
    ensures IsProjectUrl(UrlText(url), projectName) ==> r == MergeEndpoint(content)
    ensures !IsProjectUrl(UrlText(url), projectName) && (UrlText(url) == "/health" || UrlText(url) == "/") ==>
              r == HealthEndpoint(projectName, content)
    ensures !IsProjectUrl(UrlText(url), projectName) && UrlText(url) != "/health" && UrlText(url) != "/" ==>
              r == NotFoundResponse(projectName)
  {
    var u := UrlText(url);
    if IsProjectUrl(u, projectName) then MergeEndpoint(content)
    else if u == "/health" || u == "/" then HealthEndpoint(projectName, content)
    else NotFoundResponse(projectName)
  }

  /** A cached empty document: health reports ready, the merge endpoint
      answers 503 all the same. */
  lemma EmptyCacheDisagreement(projectName: string)
    ensures HealthEndpoint(projectName, Some("")).body.mergeReady
    ensures Route(Some(Endpoint(projectName)), projectName, Some("")).status == 503
  {
  }

  /** The project's url wins over `/health` when the project is called "health". */
  lemma ProjectNamedHealth(content: Option<string>)
    ensures Route(Some("/health"), "health", content) == MergeEndpoint(content)
  {
    assert Endpoint("health") == "/health";
  }

  /** An empty project name takes over the root url. */
  lemma EmptyProjectNameTakesRoot(content: Option<string>)
    ensures Route(Some("/"), "", content) == MergeEndpoint(content)
    ensures Route(Some("//"), "", content) == MergeEndpoint(content)
  {
    assert Endpoint("") == "/";
  }

  /** Query strings are not stripped: `/health?x` is not found unless the
      project name itself holds a `?`. */
  lemma QueryStringNotFound(projectName: string, query: string)
    requires '?' !in projectName
    ensures Route(Some("/health?" + query), projectName, None).status == 404
  {
    var u := "/health?" + query;
    assert u[7] == '?';
    assert u != Endpoint(projectName) by {
      if |u| == |Endpoint(projectName)| {
        assert Endpoint(projectName)[7] == projectName[6];
      }
    }
    assert u != Endpoint(projectName) + "/" by {
      if |u| == |Endpoint(projectName) + "/"| {
        if |projectName| > 6 {
          assert (Endpoint(projectName) + "/")[7] == projectName[6];
        } else {
          assert (Endpoint(projectName) + "/")[7] == '/';
        }
      }
    }
    assert |u| > |"/health"|;
  }

  /** The server object: whether it listens, and the cache it serves from. */
  class HttpServer {
    const port: int
    const projectName: string
    const cache: MergeCache.MergeCache
    var running: bool

    constructor(port: int, projectName: string, cache: MergeCache.MergeCache)
      ensures this.port == port && this.projectName == projectName && this.cache == cache
      ensures !running
    {
      this.port := port;
      this.projectName := projectName;
      this.cache := cache;
      running := false;
    }

    /** `start`: the server object exists from here on, whether or not
        listening then succeeds. */
    method Start()
      modifies this
      ensures running
    {
      running := true;
    }

    /** `stop`: idempotent. */
    method Stop()
      modifies this
      ensures !running
    {
      if running {
        running := false;
      }
    }

    /** `handleRequest`: reads the cache and changes nothing. */
    method HandleRequest(url: Option<string>) returns (r: Response)
      ensures r == Route(url, projectName, cache.content)
    {
      var u := UrlText(url);
      if IsProjectUrl(u, projectName) {
        r := MergeEndpoint(cache.content);
        return;
      }
      if u == "/health" || u == "/" {
        r := HealthEndpoint(projectName, cache.content);
        return;
      }
      r := NotFoundResponse(projectName);
    }
  }
}
