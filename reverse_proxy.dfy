/** The reverse proxy of s3-reverse-proxy/index.js: every request is sent to
    `BASE_PATH/<first label of the hostname>`, the root path gets the default
    document appended, and failures are answered with an error status.
    The forwarding itself is the proxy library's; the model keeps the target
    it is given, the path it sends and the answers written on failure. */
module ReverseProxy {

  const DefaultDocument := "index.html"
  const RequestFailureStatus := 500
  const RequestFailureBody := "Something went wrong while proxying the request."
  const ProxyFailureStatus := 502
  const ProxyFailureBody := "Proxy failed."

  /** `hostname.split('.')[0]`: the longest prefix without a dot. */
  function Subdomain(hostname: string): (sub: string)
    ensures sub <= hostname
    ensures '.' !in sub
    ensures |sub| < |hostname| ==> hostname[|sub|] == '.'
    ensures '.' !in hostname ==> sub == hostname
  {
    if hostname == [] || hostname[0] == '.' then []
    else [hostname[0]] + Subdomain(hostname[1..])
  }

  /** The three conditions of Subdomain's contract single out one prefix. */
  lemma SubdomainUnique(hostname: string, first: string)
    requires first <= hostname && '.' !in first
    requires |first| < |hostname| ==> hostname[|first|] == '.'
    ensures Subdomain(hostname) == first
  {
  }

  /** The first label of `first.rest` is `first`. */
  lemma SubdomainOfLabel(first: string, rest: string)
    requires '.' !in first
    ensures Subdomain(first + "." + rest) == first
  {
    var hostname := first + "." + rest;
    assert hostname[..|first|] == first;
    assert hostname[|first|] == '.';
    SubdomainUnique(hostname, first);
  }

  /** `${Base_Path}/${subdomain}`: the forwarding target. */
  function Target(basePath: string, hostname: string): string
  {
    basePath + "/" + Subdomain(hostname)
  }

  /** Two hostnames with the same first label go to the same target: the
      rest of the hostname, like the request path, plays no part. */
  lemma SameLabelSameTarget(basePath: string, first: string, rest1: string, rest2: string)
    requires '.' !in first
    ensures Target(basePath, first + "." + rest1) == Target(basePath, first + "." + rest2) == basePath + "/" + first
  {
    SubdomainOfLabel(first, rest1);
    SubdomainOfLabel(first, rest2);
  }

  /** The `proxyReq` rewrite: the outgoing path gains `index.html` exactly
      when the inbound URL is `/`. */
  function RewrittenPath(url: string, path: string): (p: string)
    ensures p == path <==> url != "/"
    ensures url == "/" ==> p == path + DefaultDocument
  {
    if url == "/" then path + DefaultDocument else path
  }

  /** What the upstream connection does. */
  datatype Upstream = Reachable | Unreachable(reason: string)

  /** What a request leads to: forwarded to a target with a path, or
      answered here with a status and a body. */
  datatype Outcome =
    | Forwarded(target: string, path: string)
    | Answered(status: nat, body: string)

  /** The answer to a failed forward. The proxy library passes the error to
      the request's callback when one is given and raises its `error` event
      only when none is. */
  function FailureAnswer(callbackGiven: bool): Outcome
  {
    if callbackGiven then Answered(RequestFailureStatus, RequestFailureBody)
    else Answered(ProxyFailureStatus, ProxyFailureBody)
  }

  /** One request: `hostname` and `url` are the inbound request's, `path` the
      outgoing path the proxy library prepared for the target. The handler
      always passes a callback to `proxy.web`. */
  function Handle(basePath: string, hostname: string, url: string, path: string, upstream: Upstream): (o: Outcome)
    ensures upstream.Reachable? ==> o == Forwarded(basePath + "/" + Subdomain(hostname), RewrittenPath(url, path))
    ensures upstream.Unreachable? ==> o == Answered(500, "Something went wrong while proxying the request.")
  {
    match upstream
    case Reachable => Forwarded(Target(basePath, hostname), RewrittenPath(url, path))
    case Unreachable(_) => FailureAnswer(true)
  }

  /** The two failure answers are distinct, and a proxied web request only
      ever gets the first: the `error` handler's 502 is reached only by
      requests forwarded without a callback. */
  lemma FailureAnswers(basePath: string, hostname: string, url: string, path: string, reason: string)
    ensures FailureAnswer(true) != FailureAnswer(false)
    ensures FailureAnswer(false) == Answered(502, "Proxy failed.")
    ensures Handle(basePath, hostname, url, path, Unreachable(reason)).status != 502
  {
  }

  /** The outgoing request of one forward, whose path the `proxyReq`
      handler may change. */
  class OutgoingRequest {

    var path: string

    constructor (path: string)
      ensures this.path == path
    {
      this.path := path;
    }

    /** The `proxyReq` handler. */
    method OnProxyReq(url: string)
      modifies this
      ensures path == RewrittenPath(url, old(path))
    {
      if url == "/" {
        path := path + DefaultDocument;
      }
    }
  }

  /** The response to the client, as far as the failure handlers set it. */
  class ServerResponse {

    var status: nat
    var body: string

    constructor ()
      ensures status == 200 && body == ""
    {
      status := 200;
      body := "";
    }

    /** The callback passed to `proxy.web`. */
    method OnRequestError()
      modifies this
      ensures Answered(status, body) == FailureAnswer(true)
    {
      status := RequestFailureStatus;
      body := RequestFailureBody;
    }

    /** The proxy's `error` handler. */
    method OnProxyError()
      modifies this
      ensures Answered(status, body) == FailureAnswer(false)
    {
      status := ProxyFailureStatus;
      body := ProxyFailureBody;
    }
  }
}
