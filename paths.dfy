/**
 * Where the external-contract registry keeps its files. Every name is a
 * string expression over the resolved plugin configuration, the selected
 * network and an optional group:
 *
 *   {path}/{network}[/{group}]/model//{modelName}.json
 *   {path}/{network}[/{group}]/instance/{instanceName}.json
 *
 * The double slash of the model file name is what the source builds (its
 * model directory already ends in "/"); the operating system reads it as
 * one slash, but the registry always rebuilds the same string, so reads
 * and writes of one entity agree.
 */
module ExternalPaths {
  import opened Wrappers

  /** The resolved `config.external`: base directory and network aliases. */
  datatype ExternalConfig = ExternalConfig(path: string, networkAliases: map<string, string>)

  /** What the registry reads from the runtime environment. */
  datatype Env = Env(config: ExternalConfig, networkName: string)

  /** JavaScript truthiness of an optional string: defined and non-empty. */
  predicate Truthy(s: Option<string>)
  {
    s.Some? && s.value != ""
  }

  /** Two optional groups that select the same directory. */
  predicate SameGroup(g: Option<string>, g': Option<string>)
  {
    Truthy(g) == Truthy(g') && (Truthy(g) ==> g.value == g'.value)
  }

  /**
   * Alias resolution: a truthy alias replaces the name; a missing or empty
   * alias lets the name through unchanged, and is never an error.
   */
  function NetworkName(aliases: map<string, string>, nameOrAlias: string): (r: string)
    ensures nameOrAlias in aliases && aliases[nameOrAlias] != "" ==> r == aliases[nameOrAlias]
    ensures nameOrAlias !in aliases || aliases[nameOrAlias] == "" ==> r == nameOrAlias
    ensures r == "" ==> nameOrAlias == ""
  {
    if nameOrAlias in aliases && aliases[nameOrAlias] != "" then aliases[nameOrAlias] else nameOrAlias
  }

  /** The subtree of the selected network: `{path}/{network}`. */
  function NetworkRoot(env: Env): string
  {
    env.config.path + "/" + NetworkName(env.config.networkAliases, env.networkName)
  }

  /** The group part of a directory: `/{group}` for a truthy group, else nothing. */
  function GroupSegment(group: Option<string>): (s: string)
    ensures s == "" <==> !Truthy(group)
  {
    if Truthy(group) then "/" + group.value else ""
  }

  /** `getExternalModelPath`: a directory that ends in "/model/". */
  function ModelDir(env: Env, group: Option<string>): (d: string)
    ensures NetworkRoot(env) <= d
    ensures |d| >= 7 && d[|d| - 7..] == "/model/"
  {
    NetworkRoot(env) + GroupSegment(group) + "/model/"
  }

  /** `getExternalInstancePath`: a directory that ends in "/instance", without a slash. */
  function InstanceDir(env: Env, group: Option<string>): (d: string)
    ensures NetworkRoot(env) <= d
    ensures |d| >= 9 && d[|d| - 9..] == "/instance"
  {
    NetworkRoot(env) + GroupSegment(group) + "/instance"
  }

  /**
   * `getExternalModelFilename`: the file lies directly in the model
   * directory, ends in ".json", and the model name can be read back from it.
   */
  function ModelFilename(env: Env, name: string, group: Option<string>): (f: string)
    ensures ModelDir(env, group) + "/" <= f
    ensures |f| == |ModelDir(env, group)| + |name| + 6
    ensures f[|ModelDir(env, group)| + 1 .. |f| - 5] == name && f[|f| - 5..] == ".json"
  {
    ModelDir(env, group) + "/" + name + ".json"
  }

  /** `getExternalInstanceFilename`: the same shape, in the instance directory. */
  function InstanceFilename(env: Env, name: string, group: Option<string>): (f: string)
    ensures InstanceDir(env, group) + "/" <= f
    ensures |f| == |InstanceDir(env, group)| + |name| + 6
    ensures f[|InstanceDir(env, group)| + 1 .. |f| - 5] == name && f[|f| - 5..] == ".json"
  {
    InstanceDir(env, group) + "/" + name + ".json"
  }

  /** A truthy group is the same in its segment; an undefined and an empty group agree. */
  lemma {:induction false} GroupSegmentInjective(g: Option<string>, g': Option<string>)
    ensures GroupSegment(g) == GroupSegment(g') <==> SameGroup(g, g')
  {
    if Truthy(g) && Truthy(g') {
      assert GroupSegment(g)[1..] == g.value;
      assert GroupSegment(g')[1..] == g'.value;
    }
  }

  /** Paths depend on the group only through its truthiness and value. */
  lemma SameGroupSamePaths(env: Env, name: string, g: Option<string>, g': Option<string>)
    requires SameGroup(g, g')
    ensures ModelDir(env, g) == ModelDir(env, g') && InstanceDir(env, g) == InstanceDir(env, g')
    ensures ModelFilename(env, name, g) == ModelFilename(env, name, g')
    ensures InstanceFilename(env, name, g) == InstanceFilename(env, name, g')
  {
    GroupSegmentInjective(g, g');
  }

  /** An undefined group and an empty-string group produce the same paths. */
  lemma UndefinedAndEmptyGroupAgree(env: Env, name: string)
    ensures ModelFilename(env, name, None) == ModelFilename(env, name, Some(""))
    ensures InstanceFilename(env, name, None) == InstanceFilename(env, name, Some(""))
  {
    SameGroupSamePaths(env, name, None, Some(""));
  }

  /** No model directory is an instance directory, whatever the groups. */
  lemma ModelDirIsNotInstanceDir(env: Env, g: Option<string>, g': Option<string>)
    ensures ModelDir(env, g) != InstanceDir(env, g')
  {
    var a, b := ModelDir(env, g), InstanceDir(env, g');
    assert a[|a| - 1] == a[|a| - 7..][6] == '/';
    assert b[|b| - 1] == b[|b| - 9..][8] == 'e';
  }

  /**
   * The part after the last slash: when the names carry no slash, the
   * prefix and the name can be told apart again.
   */
  lemma {:induction false} LastSegmentSplits(a: string, n: string, b: string, n': string)
    requires '/' !in n && '/' !in n'
    ensures a + "/" + n == b + "/" + n' ==> a == b && n == n'
  {
    var x, y := a + "/" + n, b + "/" + n';
    if |x| == |y| {
      if |n| < |n'| {
        var i := |x| - |n| - 1;
        assert x[i] == '/';
        assert y[i] == n'[i - |b| - 1];
        assert n'[i - |b| - 1] in n';
      } else if |n'| < |n| {
        var i := |y| - |n'| - 1;
        assert y[i] == '/';
        assert x[i] == n[i - |a| - 1];
        assert n[i - |a| - 1] in n;
      } else {
        assert x[..|a|] == a && y[..|b|] == b;
        assert x[|a| + 1..] == n && y[|b| + 1..] == n';
      }
    }
  }

  /** A common prefix and suffix cancel. */
  lemma MiddleCancels(r: string, s: string, s': string, t: string)
    ensures r + s + t == r + s' + t ==> s == s'
  {
    if |s| == |s'| {
      assert (r + s + t)[|r|..|r| + |s|] == s;
      assert (r + s' + t)[|r|..|r| + |s'|] == s';
    }
  }

  /** For the same name and group, the model file and the instance file differ. */
  lemma {:induction false} ModelAndInstanceFilesDiffer(env: Env, name: string, group: Option<string>)
    ensures ModelFilename(env, name, group) != InstanceFilename(env, name, group)
  {
    var k := |NetworkRoot(env) + GroupSegment(group)|;
    var f, f' := ModelFilename(env, name, group), InstanceFilename(env, name, group);
    assert f[k + 1] == 'm';
    assert f'[k + 1] == 'i';
  }

  /**
   * With slash-free names, no model file is ever an instance file, for any
   * names and groups.
   */
  lemma {:induction false} ModelAndInstanceFilesDisjoint(env: Env, n: string, g: Option<string>, n': string, g': Option<string>)
    requires '/' !in n && '/' !in n'
    ensures ModelFilename(env, n, g) != InstanceFilename(env, n', g')
  {
    var a, b := ModelDir(env, g), InstanceDir(env, g');
    var x, y := a + "/" + n, b + "/" + n';
    assert ModelFilename(env, n, g) == x + ".json";
    assert InstanceFilename(env, n', g') == y + ".json";
    LastSegmentSplits(a, n, b, n');
    ModelDirIsNotInstanceDir(env, g, g');
    MiddleCancels([], x, y, ".json");
  }

  /**
   * With slash-free names, two model files are the same exactly when the
   * names are equal and the groups select the same directory.
   */
  lemma {:induction false} ModelFilenameInjective(env: Env, n: string, g: Option<string>, n': string, g': Option<string>)
    requires '/' !in n && '/' !in n'
    ensures ModelFilename(env, n, g) == ModelFilename(env, n', g') <==> n == n' && SameGroup(g, g')
  {
    var a, b := ModelDir(env, g), ModelDir(env, g');
    assert ModelFilename(env, n, g) == [] + (a + "/" + n) + ".json";
    assert ModelFilename(env, n', g') == [] + (b + "/" + n') + ".json";
    MiddleCancels([], a + "/" + n, b + "/" + n', ".json");
    LastSegmentSplits(a, n, b, n');
    MiddleCancels(NetworkRoot(env), GroupSegment(g), GroupSegment(g'), "/model/");
    GroupSegmentInjective(g, g');
  }

  /** The same for instance files. */
  lemma {:induction false} InstanceFilenameInjective(env: Env, n: string, g: Option<string>, n': string, g': Option<string>)
    requires '/' !in n && '/' !in n'
    ensures InstanceFilename(env, n, g) == InstanceFilename(env, n', g') <==> n == n' && SameGroup(g, g')
  {
    var a, b := InstanceDir(env, g), InstanceDir(env, g');
    assert InstanceFilename(env, n, g) == [] + (a + "/" + n) + ".json";
    assert InstanceFilename(env, n', g') == [] + (b + "/" + n') + ".json";
    MiddleCancels([], a + "/" + n, b + "/" + n', ".json");
    LastSegmentSplits(a, n, b, n');
    MiddleCancels(NetworkRoot(env), GroupSegment(g), GroupSegment(g'), "/instance");
    GroupSegmentInjective(g, g');
  }

  /**
   * Names with slashes can make a model file and an instance file
   * coincide, which is why the lemmas above ask for slash-free names.
   */
  lemma SlashedNamesCanCollide(env: Env)
    ensures ModelFilename(env, "x", Some("instance")) == InstanceFilename(env, "model//x", None)
  {
    var r := NetworkRoot(env) + "/instance";
    assert GroupSegment(Some("instance")) == "/instance";
    assert ModelDir(env, Some("instance")) == r + "/model/";
    assert InstanceDir(env, None) == r;
    var tail: string := "/model//x";
    calc {
      ModelFilename(env, "x", Some("instance"));
      r + "/model/" + "/" + "x" + ".json";
      { assert r + "/model/" + "/" + "x" == r + tail; }
      r + tail + ".json";
      { assert r + "/" + "model//x" == r + tail; }
      r + "/" + "model//x" + ".json";
      InstanceFilename(env, "model//x", None);
    }
  }
}
