/** Environment locators (`local:NAME`, `remote:NAME` or a bare `NAME`) and the
    pure part of `initDiffCmd` in cmd/diff.go: the single-argument prefix check,
    the two-argument prefix validation and the dispatch table. */
module Locators {
  import opened Wrappers
  import opened Strings

  datatype Kind = Local | Remote

  /** A qualified locator: where the environment's objects come from, and its name. */
  datatype Locator = Locator(kind: Kind, name: string)

  /** The comparison an accepted pair of locators asks for. The names keep the
      positions they were given in, except that a mixed pair is stored with
      the local side first. */
  datatype Mode =
    | BothLocal(env1: string, env2: string)
    | BothRemote(env1: string, env2: string)
    | LocalVersusRemote(localEnv: string, remoteEnv: string)

  function KindName(k: Kind): string
  {
    match k
    case Local => "local"
    case Remote => "remote"
  }

  /** The textual form `kind:name`. */
  function Format(l: Locator): string
  {
    KindName(l.kind) + ":" + l.name
  }

  /** One argument of the two-argument form, split at its first `:` and
      accepted only when the part before it is exactly `local` or `remote`. */
  function ParseQualified(s: string): (r: Option<Locator>)
    ensures r.Some? ==> Format(r.value) == s
  {
    var parts := SplitFirst(s, ':');
    if |parts| == 2 && parts[0] == "local" then Some(Locator(Local, parts[1]))
    else if |parts| == 2 && parts[0] == "remote" then Some(Locator(Remote, parts[1]))
    else None
  }

  /** Every locator is read back as itself, whatever its name holds: an empty
      name, or further colons. So ParseQualified rejects exactly the strings
      that are no `Format(l)`. */
  lemma ParseFormat(l: Locator)
    ensures ParseQualified(Format(l)) == Some(l)
  {
    assert Format(l) == KindName(l.kind) + [':'] + l.name;
    SplitFirstUnique(Format(l), ':', KindName(l.kind), l.name);
  }

  /** The single-argument check of `initDiffSingleEnv`: a lone argument is
      refused when it starts with `remote:` or `local:`, and only then. */
  function SingleEnvAllowed(env: string): (ok: bool)
    ensures ok <==> ParseQualified(env).None?
  {
    HasPrefixIffSplit(env, "remote", ':');
    HasPrefixIffSplit(env, "local", ':');
    !(HasPrefix(env, "remote:") || HasPrefix(env, "local:"))
  }

  /** The dispatch table, stated over parsed locators. */
  function ModeOf(l1: Locator, l2: Locator): Mode
  {
    match (l1.kind, l2.kind)
    case (Local, Local) => BothLocal(l1.name, l2.name)
    case (Remote, Remote) => BothRemote(l1.name, l2.name)
    case (Local, Remote) => LocalVersusRemote(l1.name, l2.name)
    case (Remote, Local) => LocalVersusRemote(l2.name, l1.name)
  }

  /** The two-argument branch of `initDiffCmd` up to the workspace lookup:
      split both arguments at their first `:`, refuse the pair (None) unless
      both prefixes are `local` or `remote`, then choose the comparison. */
  function Dispatch(envFq1: string, envFq2: string): (r: Option<Mode>)
    ensures r.Some? <==> ParseQualified(envFq1).Some? && ParseQualified(envFq2).Some?
    ensures r.Some? ==> r.value == ModeOf(ParseQualified(envFq1).value, ParseQualified(envFq2).value)
  {
    var env1 := SplitFirst(envFq1, ':');
    var env2 := SplitFirst(envFq2, ':');
    if |env1| < 2 || |env2| < 2
      || (env1[0] != "local" && env1[0] != "remote")
      || (env2[0] != "local" && env2[0] != "remote")
    then None
    else if env1[0] == "local" && env2[0] == "local" then Some(BothLocal(env1[1], env2[1]))
    else if env1[0] == "remote" && env2[0] == "remote" then Some(BothRemote(env1[1], env2[1]))
    else
      var localEnv := if env1[0] == "remote" then env2[1] else env1[1];
      var remoteEnv := if env1[0] == "remote" then env1[1] else env2[1];
      Some(LocalVersusRemote(localEnv, remoteEnv))
  }

  /** Two well-formed locators always select the row of the table for their kinds. */
  lemma DispatchFormat(l1: Locator, l2: Locator)
    ensures Dispatch(Format(l1), Format(l2)) == Some(ModeOf(l1, l2))
  {
    ParseFormat(l1);
    ParseFormat(l2);
  }

  /** A mixed pair is resolved by kind, not by position: swapping the two
      arguments selects the same local side and the same remote side. */
  lemma DispatchMixedSymmetric(envFq1: string, envFq2: string)
    requires Dispatch(envFq1, envFq2).Some? && Dispatch(envFq1, envFq2).value.LocalVersusRemote?
    ensures Dispatch(envFq2, envFq1) == Dispatch(envFq1, envFq2)
  {
  }

  /** Two locators of the same kind keep their positional order. */
  lemma DispatchSameKindOrdered(envFq1: string, envFq2: string)
    requires Dispatch(envFq1, envFq2).Some? && !Dispatch(envFq1, envFq2).value.LocalVersusRemote?
    ensures ParseQualified(envFq1).value.kind == ParseQualified(envFq2).value.kind
    ensures Dispatch(envFq1, envFq2).value.env1 == ParseQualified(envFq1).value.name
    ensures Dispatch(envFq1, envFq2).value.env2 == ParseQualified(envFq2).value.name
  {
  }
}
