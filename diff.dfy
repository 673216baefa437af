/** The diff-mode resolver of cmd/diff.go: the argument-count checks of the
    command, `initDiffCmd` and the four builders. Every method returns the
    command it built, or the first error, together with the trace of the
    collaborator calls it made, in order. */
module Diff {
  import opened Wrappers
  import opened Sequences
  import opened Locators
  import opened Collaborators
  import opened Templates

  /** `kubecfg.LocalEnv`. */
  datatype LocalEnv = LocalEnv(name: string, objects: seq<ApiObject>)

  /** `kubecfg.Client`: a name, the expanded objects and a cluster connection. */
  datatype Client = Client(
    name: string, objects: seq<ApiObject>, pool: ClientPool, discovery: Discovery, namespace: string)

  /** The three `kubecfg.DiffCmd` shapes; each carries the diff strategy. */
  datatype DiffCmd =
    | RemoteCmd(strategy: string, client: Client)
    | LocalCmd(strategy: string, env1: LocalEnv, env2: LocalEnv)
    | RemotesCmd(strategy: string, clientA: Client, clientB: Client)

  /** One call of a collaborator, with its arguments. */
  datatype Call =
    | Getwd
    | FindApp(wd: Path)
    | Expand(app: App, env: string)                     // expandEnvObjs
    | ExpandCmd(env: string, files: seq<string>, wd: Path)  // expandEnvCmdObjs
    | RestClient(env: string)                           // restClientPool
    | Namespace                                         // namespace()
    | SetupClient(env: string)                          // setupClientConfig

  /** The error a call returns in world `w`, if any. */
  function StepError(w: World, c: Call): Option<Error>
  {
    match c
    case Getwd => w.getwd.ErrorOf()
    case FindApp(wd) => w.findApp(wd).ErrorOf()
    case Expand(app, env) => Expansion(w, app, env).ErrorOf()
    case ExpandCmd(env, files, wd) => w.expandEnvCmdObjs(env, files, wd).ErrorOf()
    case RestClient(env) => w.restClientPool(env).ErrorOf()
    case Namespace => w.namespace.ErrorOf()
    case SetupClient(env) => w.setupClientConfig(env).ErrorOf()
  }

  /** The position of the first call of `plan` that fails in `w`. */
  function FirstFailure(w: World, plan: seq<Call>): Option<nat>
  {
    FirstIndex(plan, (c: Call) => StepError(w, c).Some?)
  }

  /** The first failure is at `k` when the call there fails and all before it succeed. */
  lemma FailsAt(w: World, plan: seq<Call>, k: nat)
    requires k < |plan| && StepError(w, plan[k]).Some?
    requires forall j :: 0 <= j < k ==> StepError(w, plan[j]).None?
    ensures FirstFailure(w, plan) == Some(k)
  {
  }

  /** There is no first failure when every call succeeds. */
  lemma NeverFails(w: World, plan: seq<Call>)
    requires forall j :: 0 <= j < |plan| ==> StepError(w, plan[j]).None?
    ensures FirstFailure(w, plan) == None
  {
  }

  /** A builder that runs `plan` in order and returns at the first error has
      made the calls up to and including that one and returns its error; when
      nothing fails it has made every call and returns `done`. */
  ghost predicate RanFailFast(w: World, plan: seq<Call>, trace: seq<Call>,
                              r: Result<DiffCmd, Error>, done: DiffCmd)
  {
    match FirstFailure(w, plan)
    case Some(i) => i < |plan| && trace == plan[..i + 1] && r == Failure(StepError(w, plan[i]).value)
    case None => trace == plan && r == Success(done)
  }

  /** Fail-fast, read off a run: the calls made are a prefix of the plan, every
      call before the last one made succeeded, a failure is the error of the
      last call made, and a success means the whole plan ran without error. */
  lemma RanFailFastFacts(w: World, plan: seq<Call>, trace: seq<Call>,
                         r: Result<DiffCmd, Error>, done: DiffCmd)
    requires RanFailFast(w, plan, trace, r, done)
    ensures trace <= plan
    ensures forall k :: 0 <= k < |trace| - 1 ==> StepError(w, trace[k]).None?
    ensures r.Failure? ==> |trace| > 0 && StepError(w, trace[|trace| - 1]) == Some(r.error)
    ensures r.Success? <==> forall k :: 0 <= k < |plan| ==> StepError(w, plan[k]).None?
    ensures r.Success? ==> trace == plan && r.value == done
  {
  }

  /** The objects expanded for `env` (Go's nil when expansion failed). */
  function Objects(w: World, app: App, env: string): seq<ApiObject>
  {
    Expansion(w, app, env).GetOr([])
  }

  function ConnectionFor(w: World, env: string): Connection
  {
    w.setupClientConfig(env).GetOr(Connection(ClientPool(""), Discovery(""), ""))
  }

  /** The calls each two-argument builder makes, in its fixed order. */
  function Plan(mode: Mode, app: App): seq<Call>
  {
    match mode
    case BothLocal(env1, env2) => [Expand(app, env1), Expand(app, env2)]
    case BothRemote(env1, env2) =>
      [Expand(app, env1), Expand(app, env2), SetupClient(env1), SetupClient(env2)]
    case LocalVersusRemote(localEnv, remoteEnv) => [Expand(app, localEnv), SetupClient(remoteEnv)]
  }

  /** The command a two-argument builder returns when its plan succeeds. */
  function Command(mode: Mode, app: App, strategy: string, w: World): (c: DiffCmd)
    ensures c.strategy == strategy
    ensures mode.BothLocal? <==> c.LocalCmd?
    ensures mode.BothRemote? <==> c.RemotesCmd?
    ensures mode.LocalVersusRemote? <==> c.RemoteCmd?
  {
    match mode
    case BothLocal(env1, env2) =>
      LocalCmd(strategy, LocalEnv(env1, Objects(w, app, env1)), LocalEnv(env2, Objects(w, app, env2)))
    case BothRemote(env1, env2) =>
      var a, b := ConnectionFor(w, env1), ConnectionFor(w, env2);
      RemotesCmd(strategy,
        Client(env1, Objects(w, app, env1), a.pool, a.discovery, a.namespace),
        Client(env2, Objects(w, app, env2), b.pool, b.discovery, b.namespace))
    case LocalVersusRemote(localEnv, remoteEnv) =>
      var c := ConnectionFor(w, remoteEnv);
      RemoteCmd(strategy, Client("", Objects(w, app, localEnv), c.pool, c.discovery, c.namespace))
  }

  /** The calls of the single-environment builder, in its order. */
  function SingleEnvPlan(env: string, files: seq<string>, wd: Path): seq<Call>
  {
    [ExpandCmd(env, files, wd), RestClient(env), Namespace]
  }

  /** The command the single-environment builder returns when its plan succeeds:
      the expansion and the cluster client both for `env`. */
  function SingleEnvCommand(env: string, files: seq<string>, wd: Path, strategy: string, w: World): DiffCmd
  {
    var objects := w.expandEnvCmdObjs(env, files, wd).GetOr([]);
    var (pool, discovery) := w.restClientPool(env).GetOr((ClientPool(""), Discovery("")));
    RemoteCmd(strategy, Client("", objects, pool, discovery, w.namespace.GetOr("")))
  }

  /** `initDiffSingleEnv`: a prefixed argument is refused before any call;
      otherwise the expansion, the client pool and the namespace, fail-fast. */
  ghost predicate SingleEnvSpec(env: string, strategy: string, files: seq<string>, wd: Path, w: World,
                                r: Result<DiffCmd, Error>, trace: seq<Call>)
  {
    if SingleEnvAllowed(env) then
      RanFailFast(w, SingleEnvPlan(env, files, wd), trace, r, SingleEnvCommand(env, files, wd, strategy, w))
    else
      r == Failure(PrefixNotAllowedForSingleEnv) && trace == []
  }

  method InitDiffSingleEnv(env: string, strategy: string, files: seq<string>, wd: Path, w: World)
    returns (r: Result<DiffCmd, Error>, trace: seq<Call>)
    ensures SingleEnvSpec(env, strategy, files, wd, w, r, trace)
  {
    if !SingleEnvAllowed(env) {
      return Failure(PrefixNotAllowedForSingleEnv), [];
    }
    ghost var plan := SingleEnvPlan(env, files, wd);
    trace := [ExpandCmd(env, files, wd)];
    var objects := w.expandEnvCmdObjs(env, files, wd);
    if objects.Failure? {
      FailsAt(w, plan, 0);
      return Failure(objects.error), trace;
    }
    trace := trace + [RestClient(env)];
    var pool := w.restClientPool(env);
    if pool.Failure? {
      FailsAt(w, plan, 1);
      assert trace == plan[..2];
      return Failure(pool.error), trace;
    }
    trace := trace + [Namespace];
    var namespace := w.namespace;
    if namespace.Failure? {
      FailsAt(w, plan, 2);
      assert trace == plan;
      return Failure(namespace.error), trace;
    }
    NeverFails(w, plan);
    r := Success(RemoteCmd(strategy, Client("", objects.value, pool.value.0, pool.value.1, namespace.value)));
  }

  /** `initDiffLocalCmd`: expand env1, then env2. */
  method InitDiffLocalCmd(env1: string, env2: string, strategy: string, app: App, w: World)
    returns (r: Result<DiffCmd, Error>, trace: seq<Call>)
    ensures RanFailFast(w, Plan(BothLocal(env1, env2), app), trace, r,
                        Command(BothLocal(env1, env2), app, strategy, w))
  {
    ghost var plan := Plan(BothLocal(env1, env2), app);
    trace := [Expand(app, env1)];
    var objects1 := ExpandEnvObjs(w, app, env1);
    if objects1.Failure? {
      FailsAt(w, plan, 0);
      return Failure(objects1.error), trace;
    }
    var local1 := LocalEnv(env1, objects1.value);
    trace := trace + [Expand(app, env2)];
    var objects2 := ExpandEnvObjs(w, app, env2);
    if objects2.Failure? {
      FailsAt(w, plan, 1);
      return Failure(objects2.error), trace;
    }
    var local2 := LocalEnv(env2, objects2.value);
    NeverFails(w, plan);
    r := Success(LocalCmd(strategy, local1, local2));
  }

  /** `initDiffRemotesCmd`: expand A, expand B, connect A, connect B. */
  method InitDiffRemotesCmd(env1: string, env2: string, strategy: string, app: App, w: World)
    returns (r: Result<DiffCmd, Error>, trace: seq<Call>)
    ensures RanFailFast(w, Plan(BothRemote(env1, env2), app), trace, r,
                        Command(BothRemote(env1, env2), app, strategy, w))
  {
    ghost var plan := Plan(BothRemote(env1, env2), app);
    trace := [Expand(app, env1)];
    var objectsA := ExpandEnvObjs(w, app, env1);
    if objectsA.Failure? {
      FailsAt(w, plan, 0);
      return Failure(objectsA.error), trace;
    }
    trace := trace + [Expand(app, env2)];
    var objectsB := ExpandEnvObjs(w, app, env2);
    if objectsB.Failure? {
      FailsAt(w, plan, 1);
      return Failure(objectsB.error), trace;
    }
    trace := trace + [SetupClient(env1)];
    var connA := w.setupClientConfig(env1);
    if connA.Failure? {
      FailsAt(w, plan, 2);
      return Failure(connA.error), trace;
    }
    trace := trace + [SetupClient(env2)];
    var connB := w.setupClientConfig(env2);
    if connB.Failure? {
      FailsAt(w, plan, 3);
      return Failure(connB.error), trace;
    }
    var a, b := connA.value, connB.value;
    NeverFails(w, plan);
    r := Success(RemotesCmd(strategy,
      Client(env1, objectsA.value, a.pool, a.discovery, a.namespace),
      Client(env2, objectsB.value, b.pool, b.discovery, b.namespace)));
  }

  /** `initDiffRemoteCmd`: expand the local side, then connect the remote side. */
  method InitDiffRemoteCmd(localEnv: string, remoteEnv: string, strategy: string, app: App, w: World)
    returns (r: Result<DiffCmd, Error>, trace: seq<Call>)
    ensures RanFailFast(w, Plan(LocalVersusRemote(localEnv, remoteEnv), app), trace, r,
                        Command(LocalVersusRemote(localEnv, remoteEnv), app, strategy, w))
  {
    ghost var plan := Plan(LocalVersusRemote(localEnv, remoteEnv), app);
    trace := [Expand(app, localEnv)];
    var objects := ExpandEnvObjs(w, app, localEnv);
    if objects.Failure? {
      FailsAt(w, plan, 0);
      return Failure(objects.error), trace;
    }
    trace := trace + [SetupClient(remoteEnv)];
    var conn := w.setupClientConfig(remoteEnv);
    if conn.Failure? {
      FailsAt(w, plan, 1);
      return Failure(conn.error), trace;
    }
    var c := conn.value;
    NeverFails(w, plan);
    r := Success(RemoteCmd(strategy, Client("", objects.value, c.pool, c.discovery, c.namespace)));
  }

  /** `initDiffCmd`: one argument goes to the single-environment builder; two
      are validated, refused together with a component filter, and only then
      is the app looked up and the builder of their mode run. */
  ghost predicate InitDiffSpec(wd: Path, envFq1: string, envFq2: Option<string>, files: seq<string>,
                               strategy: string, w: World, r: Result<DiffCmd, Error>, trace: seq<Call>)
  {
    match envFq2
    case None => SingleEnvSpec(envFq1, strategy, files, wd, w, r, trace)
    case Some(second) =>
      match Dispatch(envFq1, second)
      case None => r == Failure(MissingOrInvalidPrefix) && trace == []
      case Some(mode) =>
        if |files| > 0 then r == Failure(FilterWithMultipleEnvironments) && trace == []
        else
          && |trace| >= 1 && trace[0] == FindApp(wd)
          && match w.findApp(wd)
             case Failure(e) => r == Failure(e) && trace == [FindApp(wd)]
             case Success(app) => RanFailFast(w, Plan(mode, app), trace[1..], r, Command(mode, app, strategy, w))
  }

  method InitDiffCmd(wd: Path, envFq1: string, envFq2: Option<string>, files: seq<string>,
                     strategy: string, w: World)
    returns (r: Result<DiffCmd, Error>, trace: seq<Call>)
    ensures InitDiffSpec(wd, envFq1, envFq2, files, strategy, w, r, trace)
  {
    if envFq2.None? {
      r, trace := InitDiffSingleEnv(envFq1, strategy, files, wd, w);
      return;
    }
    var mode := Dispatch(envFq1, envFq2.value);
    if mode.None? {
      return Failure(MissingOrInvalidPrefix), [];
    }
    if |files| > 0 {
      return Failure(FilterWithMultipleEnvironments), [];
    }
    var app := w.findApp(wd);
    if app.Failure? {
      return Failure(app.error), [FindApp(wd)];
    }
    var rest;
    match mode.value {
      case BothLocal(env1, env2) =>
        r, rest := InitDiffLocalCmd(env1, env2, strategy, app.value, w);
      case BothRemote(env1, env2) =>
        r, rest := InitDiffRemotesCmd(env1, env2, strategy, app.value, w);
      case LocalVersusRemote(localEnv, remoteEnv) =>
        r, rest := InitDiffRemoteCmd(localEnv, remoteEnv, strategy, app.value, w);
    }
    trace := [FindApp(wd)] + rest;
    assert trace[1..] == rest;
  }

  /** The command's entry point up to running the diff: zero or more than two
      arguments are refused before any call, then the working directory is
      read and `initDiffCmd` gets the first argument and, only when a second
      one is present, that one too. */
  method Resolve(args: seq<string>, files: seq<string>, strategy: string, w: World)
    returns (r: Result<DiffCmd, Error>, trace: seq<Call>)
    ensures |args| == 0 ==> r == Failure(NoEnvironment) && trace == []
    ensures |args| > 2 ==> r == Failure(TooManyEnvironments) && trace == []
    ensures 1 <= |args| <= 2 ==> |trace| >= 1 && trace[0] == Getwd
    ensures 1 <= |args| <= 2 && w.getwd.Failure? ==> r == Failure(w.getwd.error) && trace == [Getwd]
    ensures 1 <= |args| <= 2 && w.getwd.Success? ==>
      InitDiffSpec(w.getwd.value, args[0], if |args| == 2 then Some(args[1]) else None,
                   files, strategy, w, r, trace[1..])
    ensures r.Success? ==> 1 <= |args| <= 2 && r.value.strategy == strategy
  {
    if |args| == 0 {
      return Failure(NoEnvironment), [];
    }
    if |args| > 2 {
      return Failure(TooManyEnvironments), [];
    }
    var cwd := w.getwd;
    if cwd.Failure? {
      return Failure(cwd.error), [Getwd];
    }
    var env2: Option<string> := if |args| > 1 then Some(args[1]) else None;
    var rest;
    r, rest := InitDiffCmd(cwd.value, args[0], env2, files, strategy, w);
    trace := [Getwd] + rest;
    assert trace[1..] == rest;
    StrategyKept(cwd.value, args[0], env2, files, strategy, w, r, rest);
  }

  /** Every command the resolver builds carries the requested strategy unchanged. */
  lemma StrategyKept(wd: Path, envFq1: string, envFq2: Option<string>, files: seq<string>,
                     strategy: string, w: World, r: Result<DiffCmd, Error>, trace: seq<Call>)
    requires InitDiffSpec(wd, envFq1, envFq2, files, strategy, w, r, trace)
    ensures r.Success? ==> r.value.strategy == strategy
  {
  }

  /** Order independence of a mixed pair: `local:a remote:b` and `remote:b local:a`
      make the same calls and yield the same command. */
  lemma MixedPairOrderIndependent(wd: Path, envFq1: string, envFq2: string, files: seq<string>,
                                  strategy: string, w: World, r: Result<DiffCmd, Error>, trace: seq<Call>)
    requires Dispatch(envFq1, envFq2).Some? && Dispatch(envFq1, envFq2).value.LocalVersusRemote?
    ensures InitDiffSpec(wd, envFq1, Some(envFq2), files, strategy, w, r, trace)
        <==> InitDiffSpec(wd, envFq2, Some(envFq1), files, strategy, w, r, trace)
  {
  }

  /** A component filter with two valid arguments is refused before the app
      lookup and before any expansion. */
  lemma FilterRefusedBeforeAnyCall(wd: Path, envFq1: string, envFq2: string, files: seq<string>,
                                   strategy: string, w: World, r: Result<DiffCmd, Error>, trace: seq<Call>)
    requires InitDiffSpec(wd, envFq1, Some(envFq2), files, strategy, w, r, trace)
    requires |files| > 0
    ensures r.Failure? && trace == []
    ensures r.error == if Dispatch(envFq1, envFq2).Some? then FilterWithMultipleEnvironments
                       else MissingOrInvalidPrefix
  {
  }

  /** In the two-remote builder a cluster is contacted only after both
      expansions succeeded, and B's cluster only after A's. */
  lemma RemotesExpandBeforeConnect(w: World, app: App, env1: string, env2: string, trace: seq<Call>,
                                   r: Result<DiffCmd, Error>, done: DiffCmd, k: nat)
    requires RanFailFast(w, Plan(BothRemote(env1, env2), app), trace, r, done)
    requires k < |trace| && trace[k].SetupClient?
    ensures k >= 2 && trace[0] == Expand(app, env1) && trace[1] == Expand(app, env2)
    ensures StepError(w, Expand(app, env1)).None? && StepError(w, Expand(app, env2)).None?
    ensures trace[2] == SetupClient(env1)
    ensures k == 3 ==> trace[3] == SetupClient(env2) && StepError(w, SetupClient(env1)).None?
  {
  }
}
