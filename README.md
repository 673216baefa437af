# `ks diff` resolver, modelled in Dafny

ksonnet's `ks diff` compares Kubernetes manifests of one or two environments.
This project models how `cmd/diff.go` turns its positional arguments into a
diff command, before any diff runs:

- The positional arguments are `local:NAME`, `remote:NAME` or a bare `NAME`.
- A component filter and a diff-strategy string come with them.
- The result is one of three `kubecfg.DiffCmd` shapes, or the first error:
  - `DiffRemoteCmd` for a single environment, and for local versus remote.
  - `DiffLocalCmd` for two local environments.
  - `DiffRemotesCmd` for two remote environments.
- The model also covers how `expandEnvObjs` builds the jsonnet evaluator's inputs.

Modules, leaves first:

- `Wrappers` (`wrappers.dfy`): `Option` and `Result`.
- `Sequences` (`sequences.dfy`): `FirstIndex`, a first-occurrence search. Four
  things use it: finding the separator, finding a builder's first failing call,
  finding the first search path that holds an import, and finding the first
  external code that defines a name.
- `Strings` (`strings.dfy`): two Go library calls. `strings.SplitN(s, ":", 2)` is
  `SplitFirst`, and `strings.HasPrefix` is `HasPrefix`.
- `Locators` (`locators.dfy`): the pure part of `initDiffCmd`. It holds the
  single-argument prefix check, the two-argument prefix validation and the
  dispatch table.
- `Collaborators` (`collaborators.dfy`): the error kinds, the value types, and
  `World`. `World` holds every collaborator whose body is not part of this model,
  each as a function-typed field. Every statement proved here therefore holds
  for any function each collaborator might compute from its arguments.
- `Templates` (`templates.dfy`): `expandEnvObjs`.
  - The class `Expander` has the `FlagJpath` and `ExtCodes` slices as `seq` fields.
  - `AddEnvironment` prepends to both fields in place.
  - `WithEnvironment` is the pure form of the list composition.
- `Diff` (`diff.dfy`): the argument-count checks of the command's `RunE`,
  `initDiffCmd` and the four `initDiff*` builders.
  - Each builder is a method that returns the command or the first error, plus
    the trace of collaborator calls it made, in order.
  - `RanFailFast` states what a fail-fast run of a fixed call plan means.
  - Each builder's `ensures` ties its trace and result to the plan (`Plan`,
    `SingleEnvPlan`) and to the command assembled on success (`Command`,
    `SingleEnvCommand`).

Behaviours of cmd/diff.go that the model keeps and that are easy to miss:

- A single argument such as `foo:bar` is accepted as the environment name. Only
  the prefixes `local:` and `remote:` are refused.
- `FlagJpath` becomes `[libPath, vendorPath, envLibPath] + previous`, so the
  shared library path comes first and the environment library path third
  (cmd/diff.go:331).
- The client of a `DiffRemoteCmd` keeps an empty `Name`. Only `DiffRemotesCmd`
  names its clients.
- The single-environment builder connects through `restClientPool` and
  `namespace()`. The other builders use `setupClientConfig`.
- The working directory is read before `initDiffCmd` runs, so it is read before
  the prefixes are validated. The app lookup (`metadata.Find`) runs only after
  the filter check.

## Model

| member | source | states |
|---|---|---|
| `Strings.IndexOf` | cmd/diff.go:155-156 | the result is the position of the first `:`; none is returned exactly when the string has no `:` |
| `Strings.SplitFirst` | cmd/diff.go:155-156 | `SplitN(s, ":", 2)` gives one part (the whole string) exactly when `s` has no `:`. Otherwise it gives two parts that rejoin to `s` around a `:`, and the first part has no `:` |
| `Strings.SplitFirstUnique` | cmd/diff.go:155-156 | splitting inverts joining: for any `before` without `:`, `before + ":" + after` splits into `[before, after]`, even when `after` has more colons or is empty |
| `Strings.HasPrefixIffSplit` | cmd/diff.go:195 | for a word without `:`, `HasPrefix(s, word + ":")` holds exactly when `s` splits into two parts whose first is `word` |
| `Locators.ParseQualified` | cmd/diff.go:155-161 | an accepted argument is exactly `local:` or `remote:` followed by the name it yields |
| `Locators.ParseFormat` | cmd/diff.go:155-161 | every `kind:name` is accepted and gives back that kind and that name, whether the name is empty or has colons |
| `Locators.SingleEnvAllowed` | cmd/diff.go:195-197 | a lone argument is refused exactly when it would parse as a qualified locator; `foo:bar` and other colon strings are accepted |
| `Locators.Dispatch` | cmd/diff.go:155-185 | a pair is accepted exactly when both arguments parse as qualified locators, and the mode chosen is the dispatch-table row for their kinds |
| `Locators.DispatchFormat` | cmd/diff.go:171-185 | any two well-formed locators select the table row for their kinds, with their names |
| `Locators.DispatchMixedSymmetric` | cmd/diff.go:179-185 | swapping the arguments of a mixed pair selects the same local name and the same remote name |
| `Locators.DispatchSameKindOrdered` | cmd/diff.go:171-177 | local/local and remote/remote keep the names in argument order |
| `Templates.WithEnvironment` | cmd/diff.go:331-332 | the search paths start with `libPath, vendorPath, envLibPath` and then hold the earlier ones in their own order. The external codes start with `baseObj, params` and then hold the earlier ones in order |
| `Templates.EnvironmentPathsFirst` | cmd/diff.go:331 | under first-match lookup, the three environment paths shadow every earlier search path. The earlier paths are searched only when none of the three matches, and then in their own order |
| `Templates.EnvironmentCodesFirst` | cmd/diff.go:332 | under first-match lookup, the base object and then the parameters shadow every earlier external code |
| `Templates.Expander.constructor` | cmd/diff.go:314 | a new expander holds the search paths and codes it was created with |
| `Templates.Expander.AddEnvironment` | cmd/diff.go:331-332 | both slices are extended in place to the composition `WithEnvironment` describes |
| `Templates.EvaluatorInputShape` | cmd/diff.go:319-336 | when the evaluator is reached, the steps before it succeeded. Its one entry file is `envComponentPath`, and its paths and codes are the fresh expander's with the environment's put in front |
| `Templates.ExpandEnvObjs` | cmd/diff.go:313-337 | the imperative `expandEnvObjs` with its in-place appends returns the objects of `Expansion`, or the first collaborator error |
| `Diff.RanFailFastFacts` | cmd/diff.go:252-269 | after a fail-fast run, the calls made are a prefix of the plan and all but the last succeeded. A failure is the last call's error. Success means every planned call succeeded and all were made |
| `Diff.Command` | cmd/diff.go:218-291 | the command assembled for each mode carries the strategy and has the shape of that mode |
| `Diff.InitDiffSingleEnv` | cmd/diff.go:189-215 | a `local:`/`remote:` argument is refused before any call. Otherwise three calls run, fail-fast: expansion, client pool, namespace. On success the result is a `DiffRemoteCmd` whose objects and client are both for that name |
| `Diff.InitDiffLocalCmd` | cmd/diff.go:218-238 | expands env1, then env2, stopping at the first error. On success the result is a `DiffLocalCmd` with `Env1`/`Env2` named in order |
| `Diff.InitDiffRemotesCmd` | cmd/diff.go:241-271 | calls expand A, expand B, connect A, connect B, in that order and fail-fast. On success the result is a `DiffRemotesCmd` with clients named A and B |
| `Diff.InitDiffRemoteCmd` | cmd/diff.go:274-291 | expands the local name, then connects the remote name, fail-fast. On success the result is a `DiffRemoteCmd` |
| `Diff.InitDiffCmd` | cmd/diff.go:144-186 | one argument goes to the single-environment builder. Two arguments with a bad prefix, or any filter, are refused before any call. Otherwise the app is looked up, then the builder of the dispatched mode runs |
| `Diff.Resolve` | cmd/diff.go:50-91 | zero and more than two arguments are refused before any call. The working directory is read first. `initDiffCmd` gets the second argument only when there is one. Every command built carries the strategy |
| `Diff.StrategyKept` | cmd/diff.go:144-186 | every command `initDiffCmd` builds carries the requested diff strategy unchanged |
| `Diff.MixedPairOrderIndependent` | cmd/diff.go:179-185 | `local:a remote:b` and `remote:b local:a` make the same calls and give the same result |
| `Diff.FilterRefusedBeforeAnyCall` | cmd/diff.go:162-169 | a filter with two arguments makes no call. The error is the prefix error when validation fails and the filter error otherwise |
| `Diff.RemotesExpandBeforeConnect` | cmd/diff.go:252-269 | in the remote/remote builder, a cluster is contacted only after both expansions succeeded. Connect A is the third call, and connect B comes only after A's connection succeeded |

## Left out

- Cobra wiring, flag registration, flag reading and the help and example text
  (cmd/diff.go:39-142) are left out. The component filter and the strategy
  string are parameters, and the flag-reading errors are not modelled.
- `os.Getwd`, `metadata.Find`, `manager.LibPaths` and `manager.ComponentPaths`
  are filesystem access. They are fields of `World` that may succeed or fail.
- `newExpander`, `constructBaseObj`, `importParams`, `expandEnvCmdObjs` and the
  evaluator `expander.Expand` are jsonnet evaluation and file reading. They are
  uninterpreted fields of `World`. An expander's fields other than `FlagJpath`
  and `ExtCodes` are not modelled.
- `setupClientConfig`, `restClient`, `restClientPool`, `namespace`,
  `namespaceFor` and kubeconfig loading, including interactive reads from
  standard input, are network and library calls. They are uninterpreted fields
  of `World`.
- `c.Run` and the diff algorithm in `kubecfg` are not part of this model. The
  model stops at the command that would be run.
- The half-filled command struct the Go builders discard on an error is not
  modelled. A failure carries only its error.
- Whether the jsonnet evaluator resolves a name clash by first match or by
  last match is not part of this model. `Templates.EnvironmentPathsFirst` and
  `Templates.EnvironmentCodesFirst` state precedence for a first-match
  evaluator. Under last match, the order of both lists would reverse who wins.
- Error messages are modelled as error kinds, not text.
- Collaborators are modelled as fixed functions of their arguments. Each gives
  the same answer to the same argument on every call. So the model does not
  capture a collaborator whose answer changes between calls: `newExpander` for
  the two expansions of a two-argument run, `setupClientConfig` called twice for
  `remote:a remote:a`, or an interactive kubeconfig prompt answered differently
  each time.
