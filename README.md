# External-contract registry of hardhat-network-alias, in Dafny

The plugin lets a Hardhat project register contracts that it does not compile
itself. For each one it keeps two JSON records under a per-network directory
tree:

- a **Model** holds a contract's ABI and the address the ABI came from;
- an **Instance** binds a deployed address to a Model.

`getContract` turns a name into an (address, ABI) binding. The plugin's
configuration step resolves the tree's base directory and the network aliases.
It also registers the model files with typechain.

The model is five modules:

- `Wrappers` (`wrappers.dfy`): `Option`, `Result` and `Outcome`. A thrown
  exception becomes a returned failure.
- `ExternalPaths` (`paths.dfy`): alias resolution and the directory and file
  names (`getNetworkName`, `getExternal*Path`, `getExternal*Filename`). They
  are pure string functions.
  - The names differ by group truthiness: an undefined group and an empty
    one give the same paths.
  - With slash-free entity names, a model file is never an instance file,
    and each file name determines its name and its group (up to an undefined
    or empty group). These are facts about the path strings; distinct strings
    that the operating system resolves to one file are not told apart (see
    "## Left out").
  - A concrete lemma shows that names containing `/` can make the two
    collide.
- `ExternalRegistry` (`registry.dfy`):
  - the records;
  - `getModel`, `getInstance` and `getContract` as functions of the stored
    files;
  - class `External`, which holds the filesystem as a map from path to
    document plus a set of existing directories. Its `SaveModel` and
    `SaveInstance` methods change that state step by step: create the
    directory if it is missing, then write the file.

  The lemmas prove:
  - round trips (save, then load, gives the saved record back);
  - that each save changes only its own file;
  - the referential check of `saveInstance`;
  - the two modes of `getContract` and how their errors propagate.

  JSON serialisation is the identity.
- `PluginConfig` (`config.dfy`): the `extendConfig` callback. The host path
  library (`join`, `normalize`, `isAbsolute`) is a record of functions that
  the caller supplies and that are left uninterpreted. Typechain's settings
  object is a class whose `externalArtifacts` field is reassigned to the
  extended list.
- `PluginTasks` (`tasks.dfy`): the bodies of `external-add-model` and
  `external-add-instance`. The ABI is an input.
  - `external-add-model` never fails at its instance check.
  - When the model and instance names contain no `/`, the instance it saves
    resolves to the chosen address and the fetched ABI.

Three details of the source that the model keeps:

- Alias resolution tests the alias for truthiness (src/External.ts:27), so an
  empty-string alias falls through to the network name.
- `saveInstance` fails with the error of the model read itself
  (src/External.ts:121), such as a missing file. There is no separate
  validation error kind.
- `getContract` chooses its mode by the truthiness of the address
  (src/External.ts:78), so an empty address behaves like no address.

## Model

| member | source | states |
|---|---|---|
| `ExternalPaths.NetworkName` | src/External.ts:26-31 | A truthy alias replaces the network name. A missing or empty alias lets the name through, and there is no failure case. A non-empty name never resolves to the empty string. |
| `ExternalPaths.GroupSegment` | src/External.ts:35-40 | The group part of a directory is empty exactly when the group is undefined or empty, so only a truthy group adds a path level. |
| `ExternalPaths.ModelDir` | src/External.ts:33-36 | The model directory lies under `{path}/{network}` and ends in `/model/`. |
| `ExternalPaths.InstanceDir` | src/External.ts:38-41 | The instance directory lies under `{path}/{network}` and ends in `/instance`, with no trailing slash. |
| `ExternalPaths.ModelFilename` | src/External.ts:43-46 | The model file lies directly in the model directory after one more `/`, which gives the `model//` double slash. It ends in `.json`, and the model name can be read back from between the two. |
| `ExternalPaths.InstanceFilename` | src/External.ts:48-51 | The same shape for instance files, in the instance directory. |
| `ExternalPaths.GroupSegmentInjective` | src/External.ts:35-40 | Two groups give the same path segment exactly when both are falsy, or both are truthy and equal. |
| `ExternalPaths.SameGroupSamePaths` | src/External.ts:33-51 | Groups with the same truthiness and value give the same directories and file names. |
| `ExternalPaths.UndefinedAndEmptyGroupAgree` | src/External.ts:33-51 | An undefined group and an empty-string group give the same model and instance file names. |
| `ExternalPaths.ModelDirIsNotInstanceDir` | src/External.ts:33-41 | No model directory equals any instance directory, whatever the two groups are. |
| `ExternalPaths.ModelAndInstanceFilesDiffer` | src/External.ts:43-51 | For the same name and group, the model file and the instance file always differ, with no condition on the name. |
| `ExternalPaths.ModelAndInstanceFilesDisjoint` | src/External.ts:43-51 | With slash-free names, no model file equals any instance file, for all names and groups. |
| `ExternalPaths.ModelFilenameInjective` | src/External.ts:43-46 | With slash-free names, two model file names are equal exactly when the names are equal and the groups are equivalent. |
| `ExternalPaths.InstanceFilenameInjective` | src/External.ts:48-51 | The same for instance file names. |
| `ExternalPaths.SlashedNamesCanCollide` | src/External.ts:33-51 | Model `x` in group `instance` and instance `model//x` with no group get the same file name. This is why the lemmas above ask for slash-free names. |
| `ExternalRegistry.LoadModel` | src/External.ts:54-61 | `getModel` succeeds exactly when the model file of (name, group) holds a Model, and it returns that stored record. A failure names the file it tried. |
| `ExternalRegistry.LoadInstance` | src/External.ts:63-70 | The same for `getInstance` and the instance file. |
| `ExternalRegistry.ResolveContract` | src/External.ts:76-100 | With a truthy address, it succeeds exactly when the model file of (name, group) holds a Model, and the binding is the caller's address with that Model's ABI. Without one, it succeeds exactly when the instance file of (name, group) holds an Instance and the model file that Instance references holds a Model; the binding is the Instance's address with that Model's ABI. |
| `ExternalRegistry.ResolveContractPropagatesErrors` | src/External.ts:76-100 | With an address, `getContract` fails exactly when the model read fails, and with the same error. Without one, a failed instance read, or a failed read of the instance's Model, is the error it returns, and it succeeds exactly when both reads succeed. |
| `ExternalRegistry.ResolveModelAfterSave` | src/External.ts:78-88 | After `saveModel(m)`, `getContract(m.modelName, m.modelGroup, a)` with a non-empty `a` gives `Binding(a, m.abi)`. |
| `ExternalRegistry.ResolveInstanceAfterSaves` | src/External.ts:90-99 | With slash-free names, `saveModel(m)` and then `saveInstance(i)` of an instance that references `m` make `getContract(i.instanceName, i.modelGroup)` give `Binding(i.instanceAddress, m.abi)`. |
| `ExternalRegistry.LoadModelAfterSaveModel` | src/External.ts:102-116 | After `saveModel(m)`, `getModel` with `m`'s name and an equivalent group returns exactly `m`. The save overwrites whatever was there, with no merge. |
| `ExternalRegistry.SaveModelKeepsOtherModels` | src/External.ts:102-116 | With slash-free names, saving a Model changes no load of a Model with a different name or a different group. |
| `ExternalRegistry.SaveModelKeepsInstances` | src/External.ts:102-116 | With slash-free names, saving a Model changes no Instance load. |
| `ExternalRegistry.LoadInstanceAfterSaveInstance` | src/External.ts:118-135 | After a successful `saveInstance(i)`, `getInstance(i.instanceName, g)` returns exactly `i`, for any group `g` equivalent to `i.modelGroup`. |
| `ExternalRegistry.SaveInstanceKeepsModels` | src/External.ts:118-135 | With slash-free names, saving an Instance changes no Model load, the referenced Model's included. |
| `ExternalRegistry.SaveInstanceKeepsOtherInstances` | src/External.ts:118-135 | With slash-free names, saving an Instance changes no load of another Instance. |
| `ExternalRegistry.SaveModelKeepsWellFiled` | src/External.ts:102-116 | If every stored record sits at the file its own name and group select, that still holds after a Model save. |
| `ExternalRegistry.SaveInstanceKeepsWellFiled` | src/External.ts:118-135 | The same after an Instance save. |
| `ExternalRegistry.LoadedModelMatchesQuery` | src/External.ts:54-61 | On storage where every record sits at its own file, a Model that `getModel(name, group)` returns has that name and an equivalent group, when its name is slash-free. |
| `ExternalRegistry.LoadedInstanceMatchesQuery` | src/External.ts:63-70 | The same for `getInstance`. |
| `ExternalRegistry.External.constructor` | src/External.ts:22-24 | A registry over an existing filesystem in which every file lies under an existing directory. |
| `ExternalRegistry.External.WriteInto` | src/External.ts:114 | Writing a file under an existing directory, at any depth, replaces only that path, and every file still lies under an existing directory. |
| `ExternalRegistry.External.SaveModel` | src/External.ts:102-116 | Afterwards the model directory exists and only the model file of (`m.modelName`, `m.modelGroup`) has changed: it now holds `m`. It has no failure case. It keeps every file under an existing directory, and keeps every record at its own file. |
| `ExternalRegistry.External.SaveInstance` | src/External.ts:118-135 | It fails exactly when the referenced Model cannot be loaded, with that error, and then the files and directories are unchanged. Otherwise the instance directory exists, and only the instance file of (`i.instanceName`, `i.modelGroup`) has changed: it now holds `i`. |
| `PluginConfig.ResolvePath` | src/index.ts:32-42 | With no user path, or an empty one, the base directory is `join(root, "external")`. An absolute user path is kept as given. A relative one becomes `normalize(join(root, path))`. |
| `PluginConfig.ResolveAliases` | src/index.ts:43-45 | The alias map is the user's mapping when one is given, otherwise the empty map. |
| `PluginConfig.ResolvedPathIsAbsolute` | src/index.ts:38-42 | If the path library's join and normalize keep absolute paths absolute, the base directory is absolute whenever the project root is. |
| `PluginConfig.ArtifactsGlob` | src/index.ts:60 | The typechain glob is the base directory followed by `/**/model/*.json`. |
| `PluginConfig.WithArtifact` | src/index.ts:62-66 | The glob becomes the last element. An existing list keeps its earlier entries in order. A missing list becomes `[glob]`. |
| `PluginConfig.TypechainConfig.AddArtifact` | src/index.ts:62-66 | The settings object's `externalArtifacts` field becomes the list `WithArtifact` describes; nothing else of the object changes. |
| `PluginConfig.ExtendConfig` | src/index.ts:32-67 | `config.external` becomes the resolved path and aliases. If typechain is configured, the glob of the new path is appended to its artifacts. Without typechain, nothing typechain-related changes. |
| `PluginConfig.FixtureConfiguration` | test/project.test.ts:25-34 | The test project's configuration has no path and the alias `localhost -> hardhat`. It resolves to `join(root, "external")`, keeps the alias, and maps `localhost` to `hardhat`. |
| `PluginTasks.Interpolate` | src/External.ts:43-51 | A name parameter renders into a file name as itself when given and as `undefined` when missing, as the template literals do for the optional `instance` and `model` parameters of src/index.ts:100 and :122. |
| `PluginTasks.AddedInstance` | src/index.ts:98-103 | The saved Instance uses `instanceaddress` when it is truthy and `address` otherwise. It references the model name and group of the Model saved by the same command. |
| `PluginTasks.AddModel` | src/index.ts:91-103 | The Model and then the Instance are saved, and the instance check cannot fail. Afterwards exactly the model and instance directories of the group have been added to the existing directories. With slash-free names, `getContract(instance, group)` then binds the chosen address to the fetched ABI. |
| `PluginTasks.AddInstance` | src/index.ts:121-126 | The Instance is saved under the given model name, or `undefined` when none is given. The command fails, writing nothing, when that Model cannot be loaded; otherwise only the instance directory is added and only the instance file changes. |

## Left out

- The HTTP request to the block-explorer API and the read of the
  `BLOCKCHAIN_EXPLORER_API_KEY` environment variable (network I/O and
  environment). `AddModel` takes the ABI as an input, so `JSON.parse` of the
  API's answer is not modelled either.
- `hre.run('typechain')` after each command (a call into another task).
- The task and parameter declarations and their defaults (command-line plumbing).
- `extendEnvironment` and the lazy `External` construction (host wiring). The
  registry is built by its constructor from an `Env` value instead.
- Construction of `ethers.Contract` and the provider. `getContract` returns the
  (address, ABI) pair it would be built from.
- How the filesystem behaves:
  - `fs.mkdirSync` creating intermediate directories (only the target directory
    is recorded);
  - failures of `mkdirSync` and `writeFileSync` other than the one below;
  - path normalisation by the operating system. The map is keyed by the exact
    strings the registry builds, so `model//x.json` and `model/x.json` are
    different keys. The group goes into the path unchanged
    (src/External.ts:35, :40), so groups such as `.`, `g/`, `/g` or `a/b/..`
    give strings that name the same file as no group or as `g` or `a`, and on
    a case-insensitive filesystem `G` and `g` do too. In the source those
    groups share a file, so a save under one overwrites what a load under the
    other reads. `ModelFilenameInjective`, `InstanceFilenameInjective`,
    `SaveModelKeepsOtherModels` and `SaveInstanceKeepsOtherInstances` hold
    of path strings and do not promise that such groups are kept apart;
  - the 4-space JSON formatting;
  - parse errors on malformed files (stored documents are always well formed).
- `ExternalRegistry.External.WriteInto`: a name containing `/` puts the file
  in a subdirectory of the directory the save creates (`{dir}/a/b.json` for
  the name `a/b`). The source creates only that directory
  (src/External.ts:107, :126), so `writeFileSync` at :114 and :133 throws
  ENOENT unless the subdirectory already exists. The model writes the file
  anyway. `SaveModel`, `SaveInstance` and `AddModel` inherit this.
- `ExternalRegistry.LoadModel`: a model file that holds an Instance is
  reported as `WrongKind`, while the source casts the parsed JSON to a Model
  without a check (src/External.ts:58). The registry's own saves put such a
  file there only when a name contains `/` (on storage where every record
  sits at its own file, by `ModelAndInstanceFilesDisjoint`). A file put there
  by other means reaches this case with any names. `SaveInstance` and
  `ResolveContract` inherit the difference: on such a file the source's
  pre-check at src/External.ts:121 passes and `getContract` goes on with the
  cast record, where the model fails.
- `ExternalRegistry.LoadInstance`: an instance file that holds a Model is
  reported as `WrongKind`, while the source casts the parsed JSON to an
  Instance without a check (src/External.ts:67). As for `LoadModel`, the
  registry's own saves put such a file there only when a name contains `/`,
  and a file put there by other means reaches this case with any names.
  `ResolveContract` without an address inherits the difference.
- `PluginConfig.TypechainConfig.AddArtifact`: the source pushes onto the
  existing array object, so every other holder of that array sees the new
  entry. The model keeps the list as a value in one field and does not
  capture that sharing.
- `PluginTasks.AddModel`: with the `instance` parameter missing, the name
  rendered into the path is `undefined`, and the stored record carries that
  string. `JSON.stringify` would drop the field instead.
- `PluginTasks.AddInstance`: with the `model` parameter missing, the Instance
  records the string `undefined` as its model name, and the pre-check reads the
  model file `undefined.json`. `JSON.stringify` would drop the field from the
  stored record instead.
- JavaScript object lookup of aliases through the prototype chain (for example
  a network named `constructor`). Aliases are a plain map from string to
  string.
- The internals of `path.join`, `path.normalize` and `path.isAbsolute`. They
  are uninterpreted functions supplied by the caller.
- Concurrent writers to the same file (last write wins).
