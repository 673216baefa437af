/** The values the diff command handles and the collaborators it calls without
    their bodies being part of this model: the working directory, the ksonnet
    app lookup, the jsonnet expander and its inputs, and the cluster clients.
    Each collaborator is a field of `World`, so every statement about the
    resolver holds whatever these calls return. */
module Collaborators {
  import opened Wrappers

  type Path = string

  /** The errors the resolver raises itself, and those passed up from a collaborator. */
  datatype Error =
    | NoEnvironment                   // zero positional arguments
    | TooManyEnvironments             // more than two positional arguments
    | PrefixNotAllowedForSingleEnv    // a lone argument starting with local: or remote:
    | MissingOrInvalidPrefix          // two arguments, a prefix missing or not local/remote
    | FilterWithMultipleEnvironments  // a component filter together with two arguments
    | Failed(message: string)         // an error returned by a collaborator

  /** The ksonnet application found from the working directory (`metadata.Manager`). */
  datatype App = App(root: Path)

  /** One expanded or fetched resource (`unstructured.Unstructured`). */
  datatype ApiObject = ApiObject(kind: string, namespace: string, name: string, body: string)

  /** Opaque handles of a cluster connection. */
  datatype ClientPool = ClientPool(server: string)
  datatype Discovery = Discovery(server: string)

  /** What `setupClientConfig` returns: object access, discovery and the namespace. */
  datatype Connection = Connection(pool: ClientPool, discovery: Discovery, namespace: string)

  /** The five paths `manager.LibPaths(env)` returns, in its order. */
  datatype LibPaths = LibPaths(
    libPath: Path, vendorPath: Path, envLibPath: Path, envComponentPath: Path, envParamsPath: Path)

  /** The two fields of a fresh expander that the diff command changes. */
  datatype ExpanderConfig = ExpanderConfig(jpath: seq<Path>, extCodes: seq<string>)

  /** One call of the template evaluator: entry files, search paths, external codes. */
  datatype EvalInput = EvalInput(files: seq<Path>, jpath: seq<Path>, extCodes: seq<string>)

  datatype World = World(
    getwd: Result<Path, Error>,                                      // os.Getwd
    findApp: Path -> Result<App, Error>,                             // metadata.Find
    newExpander: Result<ExpanderConfig, Error>,                      // newExpander(cmd)
    libPaths: (App, string) -> LibPaths,                             // manager.LibPaths
    componentPaths: App -> Result<seq<Path>, Error>,                 // manager.ComponentPaths
    constructBaseObj: seq<Path> -> Result<string, Error>,            // constructBaseObj(paths, nil)
    importParams: Path -> string,                                    // importParams
    evaluate: EvalInput -> Result<seq<ApiObject>, Error>,            // expander.Expand
    expandEnvCmdObjs: (string, seq<string>, Path) -> Result<seq<ApiObject>, Error>,
    restClientPool: string -> Result<(ClientPool, Discovery), Error>,
    namespace: Result<string, Error>,                                // namespace()
    setupClientConfig: string -> Result<Connection, Error>)
}
