/**
 * The plugin's configuration step (the `extendConfig` callback): resolve
 * the registry's base directory and network aliases into `config.external`,
 * then register the model files with typechain's external artifacts.
 *
 * The host's path library is not interpreted: `join`, `normalize` and
 * `isAbsolute` are whatever functions the caller supplies.
 */
module PluginConfig {
  import opened Wrappers
  import opened ExternalPaths

  /** The operations of the host's path library that the callback uses. */
  datatype PathLib = PathLib(join: (string, string) -> string, normalize: string -> string, isAbsolute: string -> bool)

  /** `userConfig.external` as the user wrote it; both entries may be missing. */
  datatype UserExternalConfig = UserExternalConfig(path: Option<string>, networkAliases: Option<map<string, string>>)

  /** The user gave a truthy base directory. */
  predicate PathDefined(user: Option<UserExternalConfig>)
  {
    user.Some? && Truthy(user.value.path)
  }

  /** The user gave an alias mapping (an object is always truthy). */
  predicate AliasesDefined(user: Option<UserExternalConfig>)
  {
    user.Some? && user.value.networkAliases.Some?
  }

  /**
   * The base directory: `{root}/external` by default, the user's path as
   * given when it is absolute, and the user's path joined to the project
   * root and normalised when it is relative.
   */
  function ResolvePath(lib: PathLib, root: string, user: Option<UserExternalConfig>): (p: string)
    ensures !PathDefined(user) ==> p == lib.join(root, "external")
    ensures PathDefined(user) && lib.isAbsolute(user.value.path.value) ==> p == user.value.path.value
    ensures PathDefined(user) && !lib.isAbsolute(user.value.path.value) ==>
      p == lib.normalize(lib.join(root, user.value.path.value))
  {
    if PathDefined(user) then
      var given := user.value.path.value;
      if lib.isAbsolute(given) then given else lib.normalize(lib.join(root, given))
    else
      lib.join(root, "external")
  }

  /** The alias mapping: the user's when given, otherwise empty. */
  function ResolveAliases(user: Option<UserExternalConfig>): (aliases: map<string, string>)
    ensures AliasesDefined(user) ==> aliases == user.value.networkAliases.value
    ensures !AliasesDefined(user) ==> aliases == map[]
  {
    if AliasesDefined(user) then user.value.networkAliases.value else map[]
  }

  /** Joining onto an absolute path, and normalising one, keep it absolute. */
  ghost predicate KeepsAbsolute(lib: PathLib)
  {
    && (forall a, b :: lib.isAbsolute(a) ==> lib.isAbsolute(lib.join(a, b)))
    && (forall a :: lib.isAbsolute(a) ==> lib.isAbsolute(lib.normalize(a)))
  }

  /**
   * For any path library whose join and normalise keep paths absolute, the
   * base directory is absolute whenever the project root is.
   */
  lemma ResolvedPathIsAbsolute(lib: PathLib, root: string, user: Option<UserExternalConfig>)
    requires KeepsAbsolute(lib) && lib.isAbsolute(root)
    ensures lib.isAbsolute(ResolvePath(lib, root, user))
  {
  }

  /** The typechain glob that matches every model file under the base directory. */
  function ArtifactsGlob(base: string): (glob: string)
    ensures base <= glob && glob[|base|..] == "/**/model/*.json"
  {
    base + "/**/model/*.json"
  }

  /**
   * `externalArtifacts` after registering `glob`: appended at the end of an
   * existing list, earlier entries kept in order, or a one-element list.
   */
  function WithArtifact(artifacts: Option<seq<string>>, glob: string): (r: seq<string>)
    ensures |r| >= 1 && r[|r| - 1] == glob
    ensures artifacts.Some? ==> r[..|r| - 1] == artifacts.value
    ensures artifacts.None? ==> r == [glob]
  {
    if artifacts.Some? then artifacts.value + [glob] else [glob]
  }

  /** Typechain's settings object, which the callback updates in place. */
  class TypechainConfig {
    var externalArtifacts: Option<seq<string>>

    constructor (externalArtifacts: Option<seq<string>>)
      ensures this.externalArtifacts == externalArtifacts
    {
      this.externalArtifacts := externalArtifacts;
    }

    /** `externalArtifacts.push(glob)`, or a fresh list when there was none. */
    method AddArtifact(glob: string)
      modifies this
      ensures externalArtifacts == Some(WithArtifact(old(externalArtifacts), glob))
    {
      if externalArtifacts.Some? {
        externalArtifacts := Some(externalArtifacts.value + [glob]);
      } else {
        externalArtifacts := Some([glob]);
      }
    }
  }

  /** The resolved host configuration, as far as the callback touches it. */
  class HardhatConfig {
    const root: string
    var external: ExternalConfig
    const typechain: TypechainConfig?

    constructor (root: string, external: ExternalConfig, typechain: TypechainConfig?)
      ensures this.root == root && this.external == external && this.typechain == typechain
    {
      this.root := root;
      this.external := external;
      this.typechain := typechain;
    }
  }

  /**
   * The `extendConfig` callback: set `config.external`, then, when typechain
   * is configured, register the model-file glob of the new base directory.
   */
  method ExtendConfig(config: HardhatConfig, user: Option<UserExternalConfig>, lib: PathLib)
    modifies config, config.typechain
    ensures config.external == ExternalConfig(ResolvePath(lib, config.root, user), ResolveAliases(user))
    ensures config.typechain != null ==>
      config.typechain.externalArtifacts
        == Some(WithArtifact(old(config.typechain.externalArtifacts), ArtifactsGlob(config.external.path)))
  {
    config.external := ExternalConfig(ResolvePath(lib, config.root, user), ResolveAliases(user));
    if config.typechain != null {
      config.typechain.AddArtifact(ArtifactsGlob(config.external.path));
    }
  }

  /**
   * The test project's configuration: no path and the alias
   * `localhost -> hardhat` give `{root}/external` and keep the alias, so
   * the `localhost` network's files live under `hardhat`.
   */
  lemma FixtureConfiguration(lib: PathLib, root: string)
    ensures var user := Some(UserExternalConfig(None, Some(map["localhost" := "hardhat"])));
      && ResolvePath(lib, root, user) == lib.join(root, "external")
      && ResolveAliases(user)["localhost"] == "hardhat"
      && NetworkName(ResolveAliases(user), "localhost") == "hardhat"
  {
  }
}
