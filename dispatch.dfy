/** The `POST /project` handler of api-server/index.js: it picks the project
    slug, asks the container service to run one build task with the
    repository URL and the slug in its environment, and answers with the
    tracking URL or with an error. The slug generator and the container
    service are oracles: the generated slug and whether the launch call
    succeeded are inputs. */
module Dispatch {

  import opened Wrappers

  /** The request body `{ gitURL, slug }`: `slug` is None when absent or null. */
  datatype ProjectRequest = ProjectRequest(gitURL: string, slug: Option<string>)

  /** The deployment settings read from the environment. */
  datatype Config = Config(cluster: string, taskDefinition: string, subnet: string, securityGroup: string)

  datatype EnvVar = EnvVar(name: string, value: string)

  /** The RunTask command the handler sends. */
  datatype RunTask = RunTask(
    cluster: string,
    taskDefinition: string,
    launchType: string,
    count: nat,
    assignPublicIp: string,
    subnets: seq<string>,
    securityGroups: seq<string>,
    containerName: string,
    environment: seq<EnvVar>)

  datatype Body =
    | Queued(projectSlug: string, url: string)
    | Failed(message: string)

  datatype Response = Response(status: nat, body: Body)

  /** What one request leads to: the command sent and the response written. */
  datatype Handled = Handled(command: RunTask, response: Response)

  const QueueFailure := "Failed to queue the task"

  /** `slug ? slug : generateSlug()`: a given non-empty slug wins; an absent
      or empty one is replaced by the generated one. */
  function ProjectSlug(slug: Option<string>, generated: string): (s: string)
    ensures slug.Some? && slug.value != "" ==> s == slug.value
    ensures slug.None? || slug.value == "" ==> s == generated
  {
    match slug
    case Some(given) => if given != "" then given else generated
    case None => generated
  }

  /** The URL the handler answers with. */
  function TrackingUrl(projectSlug: string): string
  {
    "http://" + projectSlug + ".localhost:8000"
  }

  /** Reads the slug back out of a tracking URL. */
  function SlugOfTrackingUrl(url: string): Option<string>
  {
    var head, tail := "http://", ".localhost:8000";
    if |url| >= |head| + |tail| && url[..|head|] == head && url[|url| - |tail|..] == tail
    then Some(url[|head|..|url| - |tail|])
    else None
  }

  /** The tracking URL names its slug: reading it back gives the slug. */
  lemma TrackingUrlRoundTrip(projectSlug: string)
    ensures SlugOfTrackingUrl(TrackingUrl(projectSlug)) == Some(projectSlug)
  {
    var url := TrackingUrl(projectSlug);
    assert url == "http://" + projectSlug + ".localhost:8000";
    assert url[..7] == "http://";
    assert url[|url| - 15..] == ".localhost:8000";
    assert url[7..|url| - 15] == projectSlug;
  }

  /** Different slugs get different tracking URLs. */
  lemma TrackingUrlInjective(a: string, b: string)
    requires TrackingUrl(a) == TrackingUrl(b)
    ensures a == b
  {
    TrackingUrlRoundTrip(a);
    TrackingUrlRoundTrip(b);
  }

  /** The command for one build task. */
  function TaskCommand(config: Config, gitURL: string, projectSlug: string): RunTask
  {
    RunTask(
      config.cluster, config.taskDefinition, "FARGATE", 1, "ENABLED",
      [config.subnet], [config.securityGroup], "deployer-build-image",
      [EnvVar("GIT_REPOSITORY_URL", gitURL), EnvVar("PROJECT_ID", projectSlug)])
  }

  /** The value the task sees for an environment variable: the first entry
      of that name. */
  function EnvValue(env: seq<EnvVar>, name: string): Option<string>
  {
    if env == [] then None
    else if env[0].name == name then Some(env[0].value)
    else EnvValue(env[1..], name)
  }

  /** The handler. `generated` is what generateSlug() would return and
      `launched` whether the RunTask call succeeded. */
  function CreateProject(config: Config, request: ProjectRequest, generated: string, launched: bool): (h: Handled)
    ensures h.command == TaskCommand(config, request.gitURL, ProjectSlug(request.slug, generated))
    ensures h.response.body.Queued? <==> launched
    ensures launched ==> h.response.status == 200
    ensures !launched ==> h.response == Response(500, Failed(QueueFailure))
  {
    var projectSlug := ProjectSlug(request.slug, generated);
    var command := TaskCommand(config, request.gitURL, projectSlug);
    if launched then
      Handled(command, Response(200, Queued(projectSlug, TrackingUrl(projectSlug))))
    else
      Handled(command, Response(500, Failed(QueueFailure)))
  }

  /** The build task is launched once, with exactly two environment
      variables: the repository URL and the slug the response names. */
  lemma TaskEnvironment(config: Config, request: ProjectRequest, generated: string, launched: bool, name: string)
    ensures CreateProject(config, request, generated, launched).command.count == 1
    ensures |CreateProject(config, request, generated, launched).command.environment| == 2
    ensures EnvValue(CreateProject(config, request, generated, launched).command.environment, "GIT_REPOSITORY_URL")
         == Some(request.gitURL)
    ensures EnvValue(CreateProject(config, request, generated, launched).command.environment, "PROJECT_ID")
         == Some(ProjectSlug(request.slug, generated))
    ensures name != "GIT_REPOSITORY_URL" && name != "PROJECT_ID" ==>
      EnvValue(CreateProject(config, request, generated, launched).command.environment, name) == None
  {
    var env := CreateProject(config, request, generated, launched).command.environment;
    var rest := env[1..];
    assert rest == [EnvVar("PROJECT_ID", ProjectSlug(request.slug, generated))];
    assert rest[1..] == [];
    assert EnvValue(rest[1..], name) == None;
    assert "GIT_REPOSITORY_URL" != "PROJECT_ID" by {
      assert "GIT_REPOSITORY_URL"[0] != "PROJECT_ID"[0];
    }
  }

  /** A queued response names the slug the task was launched with, and its
      URL reads back as that slug. */
  lemma QueuedResponseMatchesTask(config: Config, request: ProjectRequest, generated: string)
    ensures CreateProject(config, request, generated, true).response.body.Queued?
    ensures Some(CreateProject(config, request, generated, true).response.body.projectSlug)
         == EnvValue(CreateProject(config, request, generated, true).command.environment, "PROJECT_ID")
    ensures SlugOfTrackingUrl(CreateProject(config, request, generated, true).response.body.url)
         == Some(CreateProject(config, request, generated, true).response.body.projectSlug)
  {
    TaskEnvironment(config, request, generated, true, "PROJECT_ID");
    TrackingUrlRoundTrip(ProjectSlug(request.slug, generated));
  }
}
