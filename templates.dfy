/** `expandEnvObjs` in cmd/diff.go: the expander's search paths and external
    codes get the environment's entries in front, and the template evaluator is
    called once on the environment's component file. */
module Templates {
  import opened Wrappers
  import opened Sequences
  import opened Collaborators

  /** The evaluator's inputs after the environment's entries are put in front:
      `[libPath, vendorPath, envLibPath]` before the search paths the expander
      already had, `[baseObj, params]` before its external codes. */
  function WithEnvironment(config: ExpanderConfig, paths: LibPaths, baseObj: string, params: string)
    : (c: ExpanderConfig)
    ensures |c.jpath| == |config.jpath| + 3 && |c.extCodes| == |config.extCodes| + 2
    ensures c.jpath[0] == paths.libPath && c.jpath[1] == paths.vendorPath && c.jpath[2] == paths.envLibPath
    ensures c.extCodes[0] == baseObj && c.extCodes[1] == params
    ensures forall k :: 0 <= k < |config.jpath| ==> c.jpath[k + 3] == config.jpath[k]
    ensures forall k :: 0 <= k < |config.extCodes| ==> c.extCodes[k + 2] == config.extCodes[k]
  {
    ExpanderConfig(
      [paths.libPath, paths.vendorPath, paths.envLibPath] + config.jpath,
      [baseObj, params] + config.extCodes)
  }

  /** Search-path precedence, for an evaluator that takes the first search
      path holding an import: one of the three environment paths that holds it
      wins over every path the expander had before; only when none of the
      three holds it is the earlier list searched, in its own order. */
  lemma EnvironmentPathsFirst(config: ExpanderConfig, paths: LibPaths, baseObj: string, params: string,
                              holds: Path -> bool)
    ensures var c := WithEnvironment(config, paths, baseObj, params);
      if holds(paths.libPath) then FirstIndex(c.jpath, holds) == Some(0)
      else if holds(paths.vendorPath) then FirstIndex(c.jpath, holds) == Some(1)
      else if holds(paths.envLibPath) then FirstIndex(c.jpath, holds) == Some(2)
      else FirstIndex(c.jpath, holds) == Shift(FirstIndex(config.jpath, holds), 3)
  {
    var front := [paths.libPath, paths.vendorPath, paths.envLibPath];
    FirstIndexAppend(front, config.jpath, holds);
    assert front[1..] == [paths.vendorPath, paths.envLibPath];
    assert front[1..][1..] == [paths.envLibPath];
  }

  /** External-code precedence, for an evaluator that takes the first code
      defining a name: the base object, then the environment's parameters,
      shadow every code the expander had before. */
  lemma EnvironmentCodesFirst(config: ExpanderConfig, paths: LibPaths, baseObj: string, params: string,
                              defines: string -> bool)
    ensures var c := WithEnvironment(config, paths, baseObj, params);
      if defines(baseObj) then FirstIndex(c.extCodes, defines) == Some(0)
      else if defines(params) then FirstIndex(c.extCodes, defines) == Some(1)
      else FirstIndex(c.extCodes, defines) == Shift(FirstIndex(config.extCodes, defines), 2)
  {
  }

  /** The expander whose `FlagJpath` and `ExtCodes` slices are extended in place. */
  class Expander {
    var flagJpath: seq<Path>
    var extCodes: seq<string>

    constructor (config: ExpanderConfig)
      ensures Config() == config
    {
      flagJpath := config.jpath;
      extCodes := config.extCodes;
    }

    function Config(): ExpanderConfig
      reads this
    {
      ExpanderConfig(flagJpath, extCodes)
    }

    /** The two `append` statements of `expandEnvObjs`. */
    method AddEnvironment(paths: LibPaths, baseObj: string, params: string)
      modifies this
      ensures Config() == WithEnvironment(old(Config()), paths, baseObj, params)
    {
      flagJpath := [paths.libPath, paths.vendorPath, paths.envLibPath] + flagJpath;
      extCodes := [baseObj, params] + extCodes;
    }
  }

  /** What `expandEnvObjs` hands to the evaluator, or the first error of the
      steps before it: creating the expander, listing the component paths and
      building the base object. */
  function EvaluatorInput(w: World, app: App, env: string): (r: Result<EvalInput, Error>)
  {
    match w.newExpander
    case Failure(e) => Failure(e)
    case Success(config) =>
      var paths := w.libPaths(app, env);
      match w.componentPaths(app)
      case Failure(e) => Failure(e)
      case Success(components) =>
        match w.constructBaseObj(components)
        case Failure(e) => Failure(e)
        case Success(baseObj) =>
          var c := WithEnvironment(config, paths, baseObj, w.importParams(paths.envParamsPath));
          Success(EvalInput([paths.envComponentPath], c.jpath, c.extCodes))
  }

  /** The objects `expandEnvObjs` returns for `env`, or its first error. */
  function Expansion(w: World, app: App, env: string): Result<seq<ApiObject>, Error>
  {
    match EvaluatorInput(w, app, env)
    case Failure(e) => Failure(e)
    case Success(input) => w.evaluate(input)
  }

  /** When the evaluator is reached, it gets the environment's component file
      as its only entry point, and the environment's search paths and codes in
      front of those of the fresh expander, in the order above. */
  lemma EvaluatorInputShape(w: World, app: App, env: string)
    requires EvaluatorInput(w, app, env).Success?
    ensures w.newExpander.Success? && w.componentPaths(app).Success?
    ensures w.constructBaseObj(w.componentPaths(app).value).Success?
    ensures var input := EvaluatorInput(w, app, env).value;
      var paths := w.libPaths(app, env);
      && input.files == [paths.envComponentPath]
      && ExpanderConfig(input.jpath, input.extCodes)
         == WithEnvironment(w.newExpander.value, paths,
                            w.constructBaseObj(w.componentPaths(app).value).value,
                            w.importParams(paths.envParamsPath))
  {
  }

  /** `expandEnvObjs`: a fresh expander, its lists extended in place, one call
      of the evaluator. Fails with the first collaborator error. */
  method ExpandEnvObjs(w: World, app: App, env: string) returns (r: Result<seq<ApiObject>, Error>)
    ensures r == Expansion(w, app, env)
  {
    var config := w.newExpander;
    if config.Failure? {
      return Failure(config.error);
    }
    var expander := new Expander(config.value);
    var paths := w.libPaths(app, env);
    var components := w.componentPaths(app);
    if components.Failure? {
      return Failure(components.error);
    }
    var baseObj := w.constructBaseObj(components.value);
    if baseObj.Failure? {
      return Failure(baseObj.error);
    }
    var params := w.importParams(paths.envParamsPath);
    expander.AddEnvironment(paths, baseObj.value, params);
    var envFiles := [paths.envComponentPath];
    r := w.evaluate(EvalInput(envFiles, expander.flagJpath, expander.extCodes));
  }
}
