/** How the three services meet: the slug the dispatch handler launches a
    build with is the build worker's project id, which names both the bus
    channel the log relay forwards and the storage prefix the reverse proxy
    reads from. */
module Pipeline {

  import opened Wrappers
  import Json
  import BuildWorker
  import Dispatch
  import LogRelay
  import ReverseProxy

  /** The hostname a deployed site is reached at (the port is not part of
      the request's hostname). */
  function SiteHostname(slug: string): string
  {
    slug + ".localhost"
  }

  /** The bus events of messages the worker publishes: each carries its
      channel and the JSON payload. */
  function BusEvents(messages: seq<BuildWorker.Message>): (r: seq<LogRelay.Event>)
    ensures |r| == |messages|
    ensures forall i :: 0 <= i < |r| ==> r[i] == LogRelay.BusPublish(messages[i].channel, messages[i].Payload())
  {
    if messages == [] then []
    else [LogRelay.BusPublish(messages[0].channel, messages[0].Payload())] + BusEvents(messages[1..])
  }

  /** The payloads of log texts, in order. */
  function Payloads(texts: seq<string>): (r: seq<string>)
    ensures |r| == |texts|
    ensures forall i :: 0 <= i < |r| ==> r[i] == Json.Payload(texts[i])
  {
    if texts == [] then [] else [Json.Payload(texts[0])] + Payloads(texts[1..])
  }

  /** Everything a worker publishes is one stream of publications on its
      project's channel. */
  lemma PublicationsOnOneChannel(projectId: string, texts: seq<string>)
    ensures BusEvents(BuildWorker.Publications(projectId, texts))
         == LogRelay.Publishes(BuildWorker.Channel(projectId), Payloads(texts))
  {
    BuildWorker.PublicationsCarryText(projectId, texts);
  }

  /** The worker's channel is one the relay forwards, whatever the id. */
  lemma WorkerChannelRelayed(projectId: string)
    ensures LogRelay.Relayed(BuildWorker.Channel(projectId))
  {
    LogRelay.RelayedIffLogsChannel(BuildWorker.Channel(projectId));
  }

  /** A client that joined the room `logs:<id>` is sent every later log line
      of that build, in order, each as a payload that decodes to the line. */
  lemma LogsReachSubscriber(s: LogRelay.RelayState, c: LogRelay.Conn, projectId: string, texts: seq<string>)
    requires c in LogRelay.Members(s.rooms, "logs:" + projectId)
    ensures LogRelay.Received(LogRelay.Run(s, BusEvents(BuildWorker.Publications(projectId, texts))).inbox, c)
         == LogRelay.Received(s.inbox, c) + Payloads(texts)
    ensures forall i :: 0 <= i < |texts| ==> Json.DecodePayload(Payloads(texts)[i]) == Some(texts[i])
  {
    PublicationsOnOneChannel(projectId, texts);
    WorkerChannelRelayed(projectId);
    LogRelay.SubscriberSeesChannel(s, c, BuildWorker.Channel(projectId), Payloads(texts));
    forall i | 0 <= i < |texts|
      ensures Json.DecodePayload(Payloads(texts)[i]) == Some(texts[i])
    {
      Json.PayloadRoundTrip(texts[i]);
    }
  }

  /** A slug without a dot is the first label of its site's hostname, so the
      proxy forwards the site to `<base>/<slug>`; a slug with a dot is cut at
      its first dot and forwarded elsewhere. */
  lemma SiteTarget(basePath: string, slug: string)
    ensures '.' !in slug ==> ReverseProxy.Target(basePath, SiteHostname(slug)) == basePath + "/" + slug
    ensures '.' in slug ==> ReverseProxy.Target(basePath, SiteHostname(slug)) != basePath + "/" + slug
  {
    if '.' !in slug {
      ReverseProxy.SubdomainOfLabel(slug, "localhost");
      assert SiteHostname(slug) == slug + "." + "localhost";
    } else {
      var sub := ReverseProxy.Subdomain(SiteHostname(slug));
      assert (basePath + "/" + sub)[|basePath| + 1..] == sub;
      assert (basePath + "/" + slug)[|basePath| + 1..] == slug;
    }
  }

  /** With the proxy's base at the bucket's `__outputs` folder, the path a
      site's file is fetched from is the key the worker stored it under. */
  lemma SiteServesStoredKey(bucket: string, slug: string, leaf: BuildWorker.Leaf)
    requires '.' !in slug
    ensures ReverseProxy.Target(bucket + "/__outputs", SiteHostname(slug)) + "/" + BuildWorker.Slashed(BuildWorker.RelativePath(leaf))
         == bucket + "/" + BuildWorker.StorageKey(slug, leaf)
  {
    SiteTarget(bucket + "/__outputs", slug);
  }

  /** End to end: a queued project's response URL names the slug its build
      task runs with; a subscriber of that build's channel is sent its log
      lines in order; and, for a slug without a dot, the proxy forwards the
      site's hostname to that slug's folder. */
  lemma QueuedProjectEndToEnd(
    config: Dispatch.Config, request: Dispatch.ProjectRequest, generated: string,
    s: LogRelay.RelayState, c: LogRelay.Conn, texts: seq<string>, bucket: string)
    requires c in LogRelay.Members(s.rooms, "logs:" + Dispatch.ProjectSlug(request.slug, generated))
    ensures Dispatch.CreateProject(config, request, generated, true).response.body.Queued?
    ensures Dispatch.SlugOfTrackingUrl(Dispatch.CreateProject(config, request, generated, true).response.body.url)
         == Some(Dispatch.ProjectSlug(request.slug, generated))
    ensures Dispatch.EnvValue(Dispatch.CreateProject(config, request, generated, true).command.environment, "PROJECT_ID")
         == Some(Dispatch.ProjectSlug(request.slug, generated))
    ensures LogRelay.Received(LogRelay.Run(s, BusEvents(BuildWorker.Publications(Dispatch.ProjectSlug(request.slug, generated), texts))).inbox, c)
         == LogRelay.Received(s.inbox, c) + Payloads(texts)
    ensures '.' !in Dispatch.ProjectSlug(request.slug, generated) ==>
      ReverseProxy.Target(bucket + "/__outputs", SiteHostname(Dispatch.ProjectSlug(request.slug, generated)))
        == bucket + "/__outputs/" + Dispatch.ProjectSlug(request.slug, generated)
  {
    var slug := Dispatch.ProjectSlug(request.slug, generated);
    Dispatch.QueuedResponseMatchesTask(config, request, generated);
    LogsReachSubscriber(s, c, slug, texts);
    SiteTarget(bucket + "/__outputs", slug);
  }
}
