# Deployment pipeline: build worker, dispatch, log relay and reverse proxy

The system is a small self-hosted deployment service with three parts:

- **API server.** Its `POST /project` handler picks a project slug. It launches one build task with the repository URL and the slug in the task's environment, then answers with a tracking URL. The same process relays build logs: browser sockets join rooms with a `subscribe` event, and every bus message on a channel matching `logs:*` is sent to the room of that channel's name.
- **Build worker.** It publishes its log as `JSON.stringify({ log })` on the channel `logs:<PROJECT_ID>`: `Build Started...`, each chunk of the build's output (standard error behind `error: `), and `Build Complete` when the build process closes. If `output/dist` exists, it then walks `dist` depth-first in listing order. For every regular file it publishes `uploading <name>`, puts the file under `__outputs/<PROJECT_ID>/<relative path>` with its content type, and publishes `uploaded <name>` when the put succeeds. A failed put is swallowed and the walk goes on. Each directory's listing starts with `Starting to upload`, and the run ends with `Done`. A missing `dist` exits the process with code 1.
- **Reverse proxy.** It forwards every request to `BASE_PATH/<first label of the hostname>`. It appends `index.html` to the outgoing path of a request for `/`. A failed forward is answered with 500, or with 502 from the proxy-level error handler.

The Dafny modules follow that structure.

- `Wrappers` holds `Option`.
- `Json` is the exact text of a log payload and the decoder that reads it back.
- `BuildWorker` has the walk and the run as functions, and the `Worker` class whose methods publish and store.
- `Dispatch` is the project handler.
- `LogRelay` has the room registry as a state machine and the `Relay` class that holds it.
- `ReverseProxy` has target resolution, the root-path rewrite and the failure answers.
- `Pipeline` joins the services: the slug that dispatch launches the build with is the worker's id, its channel is relayed, and its files are what the proxy forwards to.

External services are parameters:

- **Worker.** The worker's `Context` carries the project id, the `dist` path, the content-type lookup (a partial function) and the store's verdict on each put. The worker's input is the build's output chunks and the listing of its output directory. The store is a map from key to stored object.
- **Dispatch.** The handler takes the generated slug and whether the task launch succeeded as arguments.
- **Relay.** Connections are numbers, and each has an inbox of the messages it was sent.

In several places the code behaves differently from what a reader of such a service might expect; the model follows the code:

- **Rooms.** The relay's room is the full channel string, so a client must join `logs:<slug>` to hear a build. A client that joins the bare slug hears nothing (`LogRelay.BareIdRoomMissesLogs`). Subscribers are sent the JSON payload, not the bare log line.
- **Slugs.** A given slug is not validated. An empty one is replaced by the generated slug.
- **Hostnames.** A hostname without a dot is not rejected: the whole hostname becomes the subdomain.
- **Failure status.** Every proxied request passes a callback, so the proxy library reports a failed forward to that callback (500). The 502 `error` handler is never reached by these requests.
- **Failures at close.** No failure event is published for a missing `dist`: nothing follows `Build Complete`. A `dist` that is a file, or an output directory that cannot be listed, is logged to the console only; the process neither exits with 1 nor publishes `Done`.

## Model

| member | source | states |
|---|---|---|
| Json.EscapeChar | build-server/script.js:22 | no contract; one character as JSON.stringify writes it, specified by `Json.EscapeCharParses` |
| Json.Escaped | build-server/script.js:22 | no contract; the body of the string literal JSON.stringify writes, specified by `Json.EscapedParses` |
| Json.Quote | build-server/script.js:22 | no contract; the quoted string literal, specified through `Json.Payload` by `Json.PayloadRoundTrip` |
| Json.Payload | build-server/script.js:22 | no contract; `JSON.stringify({ log })`, specified by `Json.PayloadRoundTrip` and `Json.PayloadInjective` |
| Json.HexDigit | build-server/script.js:22 | the digit written for a nibble is `0`-`9` or lower-case `a`-`f` and reads back as that nibble |
| Json.EscapeSequence | build-server/script.js:22 | an escape sequence takes at least one and at most all of the remaining characters |
| Json.EscapeCharParses | build-server/script.js:22 | each character as JSON.stringify escapes it is decoded back to itself, whatever follows |
| Json.EscapedParses | build-server/script.js:22 | the escaped body of a string followed by a closing quote decodes to the string |
| Json.PayloadRoundTrip | build-server/script.js:22 | decoding the payload `{"log":...}` gives back the log text unchanged |
| Json.PayloadInjective | build-server/script.js:22 | different log texts have different payloads |
| BuildWorker.Channel | build-server/script.js:22 | no contract; the channel `logs:<PROJECT_ID>`, specified by `BuildWorker.PublicationsCarryText` and `Pipeline.WorkerChannelRelayed` |
| BuildWorker.Publication | build-server/script.js:21-23 | no contract; the message `publishLog` puts on the bus, specified by `BuildWorker.PublicationsCarryText` |
| BuildWorker.Publications | build-server/script.js:21-23 | no contract; `publishLog` over a run of texts, specified by `BuildWorker.PublicationsCarryText`, `BuildWorker.PublicationsSingle` and `BuildWorker.PublicationsAppend` |
| BuildWorker.PublicationsCarryText | build-server/script.js:21-23 | the i-th published message is the publication of the i-th text: on channel `logs:<PROJECT_ID>`, with a payload that decodes to the text |
| BuildWorker.PublicationsSingle | build-server/script.js:21-23 | publishing one text yields one message |
| BuildWorker.PublicationsAppend | build-server/script.js:21-23 | publishing two runs of texts is publishing their concatenation |
| BuildWorker.ChunkText | build-server/script.js:34-39 | no contract; the log text of one output chunk, specified by `BuildWorker.ChunkTexts` and `BuildWorker.RunOrder` |
| BuildWorker.ChunkTexts | build-server/script.js:32-40 | one log text per output chunk, in order: stdout verbatim, stderr behind `error: ` |
| BuildWorker.JoinPath | build-server/script.js:80-81 | no contract; names joined with `/` as `path.join` and `path.relative` give them, specified by `BuildWorker.JoinPathHead` and `BuildWorker.JoinPathInjective` |
| BuildWorker.RelativePath | build-server/script.js:80-81 | no contract; a file's path relative to `dist`, specified by `BuildWorker.StorageKey` and `BuildWorker.GoodPathsDistinctKeys` |
| BuildWorker.FilePath | build-server/script.js:80 | no contract; the absolute path passed to the lookup and the put, specified through `BuildWorker.ContentType` and `BuildWorker.WalkStoresEveryFile` |
| BuildWorker.Slashed | build-server/script.js:81 | same length, every backslash replaced by `/`, every other character kept, no backslash left |
| BuildWorker.StorageKey | build-server/script.js:80-95 | the key is `__outputs/<PROJECT_ID>/` plus the slashed path relative to `dist`, with no backslash after the prefix |
| BuildWorker.ContentType | build-server/script.js:97 | the lookup's result when it is a non-empty type, `application/octet-stream` otherwise; never empty |
| BuildWorker.Leaves | build-server/script.js:79-87 | no contract; the files the walk visits, in order, specified by `BuildWorker.LeavesAreFiles` |
| BuildWorker.UploadTexts | build-server/script.js:75-108 | no contract; the log texts of one `uploadFiles` call, specified by `BuildWorker.UploadTextsCounts` and `BuildWorker.UploadTextsShape` |
| BuildWorker.EntryTexts | build-server/script.js:79-107 | no contract; the log texts of the listing loop, specified by `BuildWorker.EntryTextsCounts` |
| BuildWorker.FileTexts | build-server/script.js:89-101 | no contract; a file's log texts, specified by `BuildWorker.FileTextsCounts` |
| BuildWorker.Put | build-server/script.js:93-100 | no contract; the store after one file's put, specified by `BuildWorker.UploadedKeys` and `BuildWorker.UploadedRoundTrip` |
| BuildWorker.Uploaded | build-server/script.js:93-100 | no contract; the store after the puts of the walk's files in order, specified by `BuildWorker.UploadedKeys`, `BuildWorker.UploadedRoundTrip` and `BuildWorker.WalkStoresEveryFile` |
| BuildWorker.WalkStep | build-server/script.js:79-87 | one more listing entry extends the visited files and the log texts by that entry's own |
| BuildWorker.WalkLogStep | build-server/script.js:79-90 | one turn of the listing loop keeps the log equal to the loop's published texts so far |
| BuildWorker.WalkStoreStep | build-server/script.js:79-100 | one turn of the listing loop keeps the store equal to the puts of the files so far |
| BuildWorker.UploadedSingle | build-server/script.js:93-100 | the walk over one file is that file's put |
| BuildWorker.LeavesAppend | build-server/script.js:79-87 | the files of two listings in sequence are the first listing's, then the second's |
| BuildWorker.EntryTextsAppend | build-server/script.js:79-90 | the texts of two listings in sequence are the first listing's, then the second's |
| BuildWorker.UploadedAppend | build-server/script.js:93-100 | putting two runs of files is putting the first run, then the second on the resulting store |
| BuildWorker.FixedTextsDiffer | build-server/script.js:44-101 | `Starting to upload` does not start with `uploading `/`uploaded `; `Done` and `Build Complete` are not walk texts |
| BuildWorker.CountPrefixedSingle | build-server/script.js:90-101 | a single text counts once exactly when it starts with the prefix |
| BuildWorker.CountPrefixedAppend | build-server/script.js:90-101 | prefixed texts of a concatenation are counted by adding the counts |
| BuildWorker.SuccessCountAppend | build-server/script.js:100-101 | accepted puts of a concatenation are counted by adding the counts |
| BuildWorker.FileTextsCounts | build-server/script.js:89-106 | one file logs one `uploading`, one `uploaded` exactly when its put succeeds, never `Starting to upload` |
| BuildWorker.UploadTextsCounts | build-server/script.js:75-108 | one `uploadFiles` call logs `Starting to upload` once per directory (its own included), `uploading` once per regular file and `uploaded` once per accepted put |
| BuildWorker.EntryTextsCounts | build-server/script.js:79-107 | the loop logs `Starting to upload` once per directory below, `uploading` per file, `uploaded` per accepted put |
| BuildWorker.UploadTextsShape | build-server/script.js:75-108 | every text of a walk is `Starting to upload`, `uploading <name>` or `uploaded <name>` |
| BuildWorker.EntryTextsShape | build-server/script.js:79-107 | every text of the listing loop is a walk text |
| BuildWorker.LeavesAreFiles | build-server/script.js:79-87 | the walk visits exactly the regular files of the tree (membership iff `FileIn`), as many leaves as files, and in a well-formed tree no file twice |
| BuildWorker.LeavesCount | build-server/script.js:79-87 | the walk has one leaf per regular file of the tree |
| BuildWorker.LeavesMembership | build-server/script.js:79-87 | a leaf is visited by the walk of a listing iff it is a regular file of that tree |
| BuildWorker.EntryLeavesMembership | build-server/script.js:83-90 | a leaf comes from one entry iff it is that file or a file below that directory |
| BuildWorker.LeavesUnder | build-server/script.js:80-85 | every leaf of a listing lies below its directory, under one of the listing's names, with good names below |
| BuildWorker.EntryLeavesUnder | build-server/script.js:80-85 | every leaf of an entry lies below the listing's directory under that entry's name |
| BuildWorker.DistinctPathsAppend | build-server/script.js:79-87 | two leaf sequences with distinct paths and no path in common concatenate to one with distinct paths |
| BuildWorker.LeavesDistinct | build-server/script.js:79-87 | in a well-formed tree no two leaves of the walk share a path |
| BuildWorker.EntryLeavesDistinct | build-server/script.js:83-87 | the leaves of one well-formed entry have distinct paths |
| BuildWorker.UploadedKeys | build-server/script.js:93-106 | after the walk the store's keys are the old ones plus those of accepted puts; untouched keys keep their objects |
| BuildWorker.UploadedRoundTrip | build-server/script.js:93-100 | an accepted file is stored under its key with its bytes and content type unless a later accepted file wrote the same key |
| BuildWorker.DistinctPathsDistinctKeys | build-server/script.js:81-95 | files with different backslash-free relative paths get different keys |
| BuildWorker.BackslashNamesShareKey | build-server/script.js:81-95 | a root file named `a\b` and a file `b` in directory `a` get the same key |
| BuildWorker.FirstSegment | build-server/script.js:80-81 | the prefix of a path before its first separator: slash-free and followed by `/` or the end |
| BuildWorker.FirstSegmentUnique | build-server/script.js:80-81 | exactly one prefix meets FirstSegment's conditions |
| BuildWorker.JoinPathHead | build-server/script.js:80-81 | a joined path of good names starts with its first name, is that name alone iff there is one, and otherwise continues with the join of the rest |
| BuildWorker.JoinPathInjective | build-server/script.js:80-81 | the joined relative path of good names determines the names |
| BuildWorker.JoinPathNoBackslash | build-server/script.js:80-81 | joining backslash-free names gives a backslash-free path |
| BuildWorker.GoodPathsDistinctKeys | build-server/script.js:81-95 | files with different paths of good names get different keys |
| BuildWorker.LeavesDistinctKeys | build-server/script.js:81-95 | in a well-formed tree no two files of the walk share a key |
| BuildWorker.WalkStoresEveryFile | build-server/script.js:79-106 | after the walk, every regular file of a well-formed tree whose put was accepted is stored under its key with its bytes and content type |
| BuildWorker.DistOf | build-server/script.js:47-60 | no contract; what the close handler finds (no output directory, no `dist`, a `dist` file, a `dist` directory), specified by `BuildWorker.UploadIffDistDirectory` |
| BuildWorker.DistIn | build-server/script.js:54-60 | no contract; the `dist` entry of the output listing, specified by `BuildWorker.UploadIffDistDirectory` |
| BuildWorker.CloseStore | build-server/script.js:42-72 | no contract; the store after the close handler, specified by `BuildWorker.UploadIffDistDirectory` and `BuildWorker.WalkStoresEveryFile` |
| BuildWorker.CloseTexts | build-server/script.js:42-72 | no contract; the close handler's log texts, specified by `BuildWorker.CloseTextsShape` and `BuildWorker.UploadIffDistDirectory` |
| BuildWorker.CloseOutcomeOf | build-server/script.js:54-66 | no contract; how the close handler ends, specified by `BuildWorker.UploadIffDistDirectory` |
| BuildWorker.RunTexts | build-server/script.js:25-73 | no contract; all log texts of a run, specified by `BuildWorker.RunOrder` |
| BuildWorker.CloseTextsShape | build-server/script.js:42-72 | the close handler logs `Build Complete` first and afterwards only walk texts and `Done` |
| BuildWorker.RunOrder | build-server/script.js:27-44 | a run logs `Build Started...` first, then each chunk's text in arrival order, then `Build Complete`, then only walk texts and `Done` |
| BuildWorker.UploadIffDistDirectory | build-server/script.js:54-66 | `Starting to upload` and `Done` are logged iff `dist` is a directory; a missing `dist` is exit 1; otherwise the store is unchanged; `Done` is last |
| BuildWorker.Worker.constructor | build-server/script.js:9-19 | a worker starts with nothing published and the given store |
| BuildWorker.Worker.PublishLog | build-server/script.js:21-23 | appends the text's message on the project's channel, nothing else |
| BuildWorker.Worker.OnData | build-server/script.js:32-40 | appends one message with the chunk's text |
| BuildWorker.Worker.UploadFile | build-server/script.js:89-106 | logs `uploading`, puts the file, logs `uploaded` on success; a failed put leaves the store and goes on |
| BuildWorker.Worker.UploadFiles | build-server/script.js:75-108 | publishes exactly the walk's texts, leaves the store equal to the puts of the files in depth-first listing order, and for a well-formed tree stores every accepted file under its key with its bytes and content type |
| BuildWorker.Worker.OnClose | build-server/script.js:42-72 | publishes the close texts, leaves the store as the walk does, and returns Completed, Exited(1) or Aborted by what `output` holds |
| BuildWorker.Worker.OnOutput | build-server/script.js:32-40 | publishes one message per chunk, in order |
| BuildWorker.Worker.Init | build-server/script.js:25-73 | publishes exactly the run's texts, leaves the store as the close handler does, returns its outcome |
| Dispatch.ProjectSlug | api-server/index.js:45 | a given non-empty slug wins; an absent or empty one is replaced by the generated one |
| Dispatch.TrackingUrl | api-server/index.js:78 | no contract; the response URL, specified by `Dispatch.TrackingUrlRoundTrip` and `Dispatch.TrackingUrlInjective` |
| Dispatch.TrackingUrlRoundTrip | api-server/index.js:78 | the slug is read back out of its tracking URL |
| Dispatch.TrackingUrlInjective | api-server/index.js:78 | different slugs have different tracking URLs |
| Dispatch.TaskCommand | api-server/index.js:49-72 | no contract; the build task's command, specified by `Dispatch.TaskEnvironment` |
| Dispatch.CreateProject | api-server/index.js:43-84 | the command is the task for the chosen slug; queued iff launched, with status 200; otherwise 500 with `Failed to queue the task` |
| Dispatch.TaskEnvironment | api-server/index.js:49-72 | one task is launched, its environment has exactly GIT_REPOSITORY_URL = gitURL and PROJECT_ID = slug and no other name |
| Dispatch.QueuedResponseMatchesTask | api-server/index.js:64-78 | a queued response names the slug the task got as PROJECT_ID, and its URL reads back as that slug |
| LogRelay.GlobMatch | api-server/index.js:88 | no contract; the bus's glob matching, specified by `LogRelay.StarMatchesAll` and `LogRelay.LiteralStarIsPrefix` |
| LogRelay.StarMatchesAll | api-server/index.js:88 | `*` matches every channel |
| LogRelay.LiteralStarIsPrefix | api-server/index.js:88 | a literal followed by `*` matches exactly the channels that start with the literal |
| LogRelay.RelayedIffLogsChannel | api-server/index.js:88 | a channel is relayed iff it starts with `logs:` |
| LogRelay.Relayed | api-server/index.js:88 | no contract; whether the bus hands a channel's messages to the relay, specified by `LogRelay.RelayedIffLogsChannel` |
| LogRelay.JoinAck | api-server/index.js:21 | no contract; the acknowledgement `Joined <channel>`, specified by `LogRelay.Join` and `LogRelay.NoReplay` |
| LogRelay.Join | api-server/index.js:19-22 | the connection joins the room named by exactly the sent string; only it is sent `Joined <channel>` |
| LogRelay.Broadcast | api-server/index.js:89-91 | rooms unchanged; each member of the channel's room is sent the message once and unchanged, no one else anything |
| LogRelay.Step | api-server/index.js:19-91 | no contract; one event, specified by `LogRelay.StepKeepsRooms` and `LogRelay.StepDelivers` |
| LogRelay.Run | api-server/index.js:18-91 | no contract; a sequence of events in order, specified by `LogRelay.RunAppend`, `LogRelay.DeliveryInOrder` and `LogRelay.NoReplay` |
| LogRelay.Relay.constructor | api-server/index.js:16 | a relay starts with no rooms and empty inboxes |
| LogRelay.Relay.OnSubscribe | api-server/index.js:19-22 | the relay's state becomes the Join of the old state |
| LogRelay.Relay.OnPMessage | api-server/index.js:89-91 | the relay's state becomes the Broadcast of the old state |
| LogRelay.Relay.Deliver | api-server/index.js:88-91 | a bus message changes the state as one relay step does: broadcast if relayed, nothing otherwise |
| LogRelay.StepKeepsRooms | api-server/index.js:19-91 | only a connection's own `subscribe` changes its rooms |
| LogRelay.StepDelivers | api-server/index.js:89-91 | one event sends a connection the message iff it is relayed and the connection is in its room |
| LogRelay.DeliveryInOrder | api-server/index.js:88-91 | without resubscribing, a connection is sent exactly the relayed messages of its rooms, in publication order, each once |
| LogRelay.RunAppend | api-server/index.js:18-91 | running two event sequences is running their concatenation |
| LogRelay.NoReplay | api-server/index.js:19-91 | a connection that subscribes after publications is sent none of them, only its acknowledgement |
| LogRelay.HeardNothing | api-server/index.js:89-91 | a connection in no room hears nothing |
| LogRelay.SubscriberSeesChannel | api-server/index.js:88-91 | a member of a relayed channel's room is sent all later messages on it, in order |
| LogRelay.Publishes | api-server/index.js:88-91 | one bus event per message, on the given channel, in order |
| LogRelay.PublishesSubscribeNoOne | api-server/index.js:88-91 | publications are no one's `subscribe` |
| LogRelay.HeardAll | api-server/index.js:88-91 | a connection in the room of a relayed channel hears all its messages |
| LogRelay.JoinTwiceDeliversOnce | api-server/index.js:19-91 | joining twice leaves the rooms as joining once; a later message is delivered once |
| LogRelay.BareIdRoomMissesLogs | api-server/index.js:20-90 | a connection only in the room named by the bare id is sent nothing from `logs:<id>` |
| ReverseProxy.Subdomain | s3-reverse-proxy/index.js:13 | a prefix of the hostname with no dot, followed by a dot or the end; the whole hostname when it has no dot |
| ReverseProxy.SubdomainUnique | s3-reverse-proxy/index.js:13 | exactly one prefix meets the subdomain's conditions |
| ReverseProxy.SubdomainOfLabel | s3-reverse-proxy/index.js:13 | the subdomain of `label.rest` is `label` |
| ReverseProxy.Target | s3-reverse-proxy/index.js:17 | no contract; `BASE_PATH/subdomain`, specified by `ReverseProxy.SameLabelSameTarget` |
| ReverseProxy.SameLabelSameTarget | s3-reverse-proxy/index.js:12-17 | hostnames with the same first label resolve to the same target `BASE_PATH/label` |
| ReverseProxy.RewrittenPath | s3-reverse-proxy/index.js:25-30 | the outgoing path gains `index.html` iff the URL is exactly `/`; otherwise it is unchanged |
| ReverseProxy.FailureAnswer | s3-reverse-proxy/index.js:19-35 | no contract; the answer to a failed forward with or without a callback, specified by `ReverseProxy.FailureAnswers` |
| ReverseProxy.Handle | s3-reverse-proxy/index.js:11-23 | a reachable upstream is forwarded to `BASE_PATH/subdomain` with the rewritten path; a failure is 500 with its message |
| ReverseProxy.FailureAnswers | s3-reverse-proxy/index.js:19-35 | the two failure answers differ; the error handler's is 502 `Proxy failed.`; a web request never gets 502 |
| ReverseProxy.OutgoingRequest.constructor | s3-reverse-proxy/index.js:19 | the outgoing request starts with the prepared path |
| ReverseProxy.OutgoingRequest.OnProxyReq | s3-reverse-proxy/index.js:25-30 | the path becomes the rewritten path of the old one |
| ReverseProxy.ServerResponse.constructor | s3-reverse-proxy/index.js:11 | a fresh response has status 200 and no body |
| ReverseProxy.ServerResponse.OnRequestError | s3-reverse-proxy/index.js:19-22 | the response is 500 `Something went wrong while proxying the request.` |
| ReverseProxy.ServerResponse.OnProxyError | s3-reverse-proxy/index.js:32-35 | the response is 502 `Proxy failed.` |
| Pipeline.BusEvents | build-server/script.js:22 | one bus event per published message, with its channel and payload |
| Pipeline.Payloads | build-server/script.js:22 | one payload per log text, in order |
| Pipeline.PublicationsOnOneChannel | build-server/script.js:21-23 | a worker's messages are one stream of publications of the payloads on its channel |
| Pipeline.WorkerChannelRelayed | api-server/index.js:88 | the worker's channel always matches the relay's pattern |
| Pipeline.LogsReachSubscriber | api-server/index.js:88-91 | a member of room `logs:<id>` is sent every later log payload of that build, in order, each decoding to its line |
| Pipeline.SiteTarget | s3-reverse-proxy/index.js:13-17 | the site hostname resolves to `BASE_PATH/<slug>` iff the slug has no dot |
| Pipeline.SiteServesStoredKey | s3-reverse-proxy/index.js:17 | with the proxy based at the bucket's `__outputs`, the target plus a file's relative path is the bucket plus the file's key |
| Pipeline.QueuedProjectEndToEnd | api-server/index.js:45-78 | a queued project's URL and task carry its slug, its subscribers get its log in order, and a dotless slug's site is forwarded to its folder |

## Left out

- BuildWorker.WalkStoresEveryFile: the whole-tree round trip is promised only for well-formed trees (good names, unique in each listing). A name may hold a backslash on POSIX file systems; two files can then share a key and the later put wins (`BuildWorker.BackslashNamesShareKey`).
- Child process: `npm install && npm run build` is not modelled. The build's output is an input sequence of chunks, and the build always closes.
- Failures before the close handler, such as a build process that cannot be started, are not modelled; the process writing to its own stdout and stderr is console output.
- Object store, bus, task launcher and socket transport: each is an oracle (a put verdict, the launch result) or abstract state (a map, inbox sequences); their protocols, latency and failures other than the put verdict and the launch result are not modelled.
- The bus's publish does not wait for delivery, so a message published just before `process.exit(1)` may be lost; the model counts every publish as delivered.
- File reads: a file's bytes are whatever the directory tree holds; a read-stream failure and a sub-directory listing failure inside the walk are not modelled, and entries other than regular files and directories (symbolic links, sockets) are not modelled.
- Slug generation and content-type lookup are parameters: the generated slug is an argument; the lookup is a partial function from path to type, standing for `mime-types`.
- Dispatch: request bodies whose `slug` or `gitURL` is not a string (JSON truthiness of numbers, objects) are not modelled; `slug` is an optional string.
- Configuration, credentials, ports, environment loading, startup and console logging are not modelled; an undefined `PROJECT_ID` or `BASE_PATH` (which the code would print as `undefined`) is not modelled.
- Concurrency: the handlers are modelled one at a time in the order their events arrive; interleavings across channels and between connections are not.
- Relay: socket.io's own per-socket room (named by the socket id), joining with an array of room names, disconnect clean-up and the pattern parameter of `pmessage` (which the handler ignores) are not modelled.
- ReverseProxy.Handle: the outgoing path that the proxy library prepares by joining the target's path with the request URL is an input, not computed; forwarding itself, `changeOrigin`, the library's `econnreset` path and a request without a Host header are not modelled.
- Express reads `req.hostname` from the Host header without its port; the model takes that hostname as given.
- JSON: characters are Unicode scalar values, so the escaping of lone surrogates is not modelled.
- There is no fetch stage: build-server/script.js never clones the repository URL, so there is nothing to model.
- A "not yet available" answer for sites still being built, slug validation, rejection of dotless hostnames and uniqueness of generated slugs are not in the code and not modelled.
