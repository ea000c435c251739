/**
 * The external-contract registry: Model and Instance records kept as JSON
 * files under the network's subtree, read back by name and group, and
 * resolved into (address, ABI) bindings.
 *
 * The filesystem is a map from path to the document stored there plus the
 * set of directories that exist. JSON serialisation is the identity: the
 * document read back from a path is the record last written there.
 */
module ExternalRegistry {
  import opened Wrappers
  import opened ExternalPaths

  /** One ABI fragment (a function, event or error signature), kept as JSON text. */
  type Fragment = string

  /** A contract interface: its ABI and the address the ABI was fetched from. */
  datatype Model = Model(modelName: string, modelGroup: Option<string>, abiAddress: string, abi: seq<Fragment>)

  /** A deployed contract bound to the Model `(modelName, modelGroup)`. */
  datatype Instance = Instance(instanceName: string, instanceAddress: string, modelName: string, modelGroup: Option<string>)

  /** The parsed content of one registry file. */
  datatype Document = ModelDoc(model: Model) | InstanceDoc(instance: Instance)

  /** What a contract handle is built from: an address and an ABI. */
  datatype Binding = Binding(address: string, abi: seq<Fragment>)

  /** Why a read failed: no file at the path, or a file holding the other kind of record. */
  datatype LoadError = NotFound(path: string) | WrongKind(path: string)

  /**
   * `getModel`: the Model stored at the model file of `(name, group)`. A
   * failure names the file the read tried.
   */
  function LoadModel(env: Env, files: map<string, Document>, name: string, group: Option<string>): (r: Result<Model, LoadError>)
    ensures r.Ok? <==> ModelFilename(env, name, group) in files && files[ModelFilename(env, name, group)].ModelDoc?
    ensures r.Ok? ==> files[ModelFilename(env, name, group)] == ModelDoc(r.value)
    ensures r.Err? ==> r.error.path == ModelFilename(env, name, group)
  {
    var filename := ModelFilename(env, name, group);
    if filename !in files then Err(NotFound(filename))
    else match files[filename]
      case ModelDoc(m) => Ok(m)
      case InstanceDoc(_) => Err(WrongKind(filename))
  }

  /** `getInstance`: the Instance stored at the instance file of `(name, group)`. */
  function LoadInstance(env: Env, files: map<string, Document>, name: string, group: Option<string>): (r: Result<Instance, LoadError>)
    ensures r.Ok? <==> InstanceFilename(env, name, group) in files && files[InstanceFilename(env, name, group)].InstanceDoc?
    ensures r.Ok? ==> files[InstanceFilename(env, name, group)] == InstanceDoc(r.value)
    ensures r.Err? ==> r.error.path == InstanceFilename(env, name, group)
  {
    var filename := InstanceFilename(env, name, group);
    if filename !in files then Err(NotFound(filename))
    else match files[filename]
      case InstanceDoc(i) => Ok(i)
      case ModelDoc(_) => Err(WrongKind(filename))
  }

  /**
   * `getContract`: with a truthy address, `name` is a Model name and the
   * binding uses that address and the ABI of the Model file of
   * `(name, group)`; otherwise `name` is an Instance name and the binding
   * uses the address of the Instance file of `(name, group)` and the ABI of
   * the Model file that Instance references. It succeeds exactly when
   * those files hold records of the expected kind.
   */
  function ResolveContract(env: Env, files: map<string, Document>, name: string, group: Option<string>, address: Option<string>): (r: Result<Binding, LoadError>)
    ensures Truthy(address) ==>
      var mf := ModelFilename(env, name, group);
      && (r.Ok? <==> mf in files && files[mf].ModelDoc?)
      && (r.Ok? ==> r.value == Binding(address.value, files[mf].model.abi))
    ensures !Truthy(address) ==>
      var f := InstanceFilename(env, name, group);
      && (r.Ok? <==>
            && f in files && files[f].InstanceDoc?
            && ModelFilename(env, files[f].instance.modelName, files[f].instance.modelGroup) in files
            && files[ModelFilename(env, files[f].instance.modelName, files[f].instance.modelGroup)].ModelDoc?)
      && (r.Ok? ==>
            r.value == Binding(files[f].instance.instanceAddress,
                               files[ModelFilename(env, files[f].instance.modelName, files[f].instance.modelGroup)].model.abi))
  {
    if Truthy(address) then
      match LoadModel(env, files, name, group)
      case Err(e) => Err(e)
      case Ok(m) => Ok(Binding(address.value, m.abi))
    else
      match LoadInstance(env, files, name, group)
      case Err(e) => Err(e)
      case Ok(i) =>
        match LoadModel(env, files, i.modelName, i.modelGroup)
        case Err(e) => Err(e)
        case Ok(m) => Ok(Binding(i.instanceAddress, m.abi))
  }

  /** The files after `saveModel(m)`. */
  function WithModel(env: Env, files: map<string, Document>, m: Model): map<string, Document>
  {
    files[ModelFilename(env, m.modelName, m.modelGroup) := ModelDoc(m)]
  }

  /** The files after a `saveInstance(i)` that passed its check. */
  function WithInstance(env: Env, files: map<string, Document>, i: Instance): map<string, Document>
  {
    files[InstanceFilename(env, i.instanceName, i.modelGroup) := InstanceDoc(i)]
  }

  /** Every stored record sits at the file its own name and group select. */
  ghost predicate WellFiled(env: Env, files: map<string, Document>)
  {
    && (forall p | p in files && files[p].ModelDoc? ::
          p == ModelFilename(env, files[p].model.modelName, files[p].model.modelGroup))
    && (forall p | p in files && files[p].InstanceDoc? ::
          p == InstanceFilename(env, files[p].instance.instanceName, files[p].instance.modelGroup))
  }

  /** Some directory that exists holds the file `p` directly or further down. */
  ghost predicate InExistingDir(p: string, dirs: set<string>)
  {
    exists k :: 0 <= k < |p| && p[k] == '/' && p[..k] in dirs
  }

  /**
   * Save then load: `getModel` with the saved name and an equivalent group
   * returns the saved Model, whatever the file held before (no merge).
   */
  lemma LoadModelAfterSaveModel(env: Env, files: map<string, Document>, m: Model, group: Option<string>)
    requires SameGroup(group, m.modelGroup)
    ensures LoadModel(env, WithModel(env, files, m), m.modelName, group) == Ok(m)
  {
    SameGroupSamePaths(env, m.modelName, group, m.modelGroup);
  }

  /** Saving a Model leaves every other Model with a slash-free name as it was. */
  lemma {:induction false} SaveModelKeepsOtherModels(env: Env, files: map<string, Document>, m: Model, name: string, group: Option<string>)
    requires '/' !in name && '/' !in m.modelName
    requires name != m.modelName || !SameGroup(group, m.modelGroup)
    ensures LoadModel(env, WithModel(env, files, m), name, group) == LoadModel(env, files, name, group)
  {
    ModelFilenameInjective(env, name, group, m.modelName, m.modelGroup);
  }

  /** Saving a Model leaves every Instance as it was. */
  lemma {:induction false} SaveModelKeepsInstances(env: Env, files: map<string, Document>, m: Model, name: string, group: Option<string>)
    requires '/' !in name && '/' !in m.modelName
    ensures LoadInstance(env, WithModel(env, files, m), name, group) == LoadInstance(env, files, name, group)
  {
    ModelAndInstanceFilesDisjoint(env, m.modelName, m.modelGroup, name, group);
  }

  /** Save then load, for instances: the instance file is selected by the Model's group. */
  lemma LoadInstanceAfterSaveInstance(env: Env, files: map<string, Document>, i: Instance, group: Option<string>)
    requires SameGroup(group, i.modelGroup)
    ensures LoadInstance(env, WithInstance(env, files, i), i.instanceName, group) == Ok(i)
  {
    SameGroupSamePaths(env, i.instanceName, group, i.modelGroup);
  }

  /** Saving an Instance leaves every Model as it was, the one it references included. */
  lemma {:induction false} SaveInstanceKeepsModels(env: Env, files: map<string, Document>, i: Instance, name: string, group: Option<string>)
    requires '/' !in name && '/' !in i.instanceName
    ensures LoadModel(env, WithInstance(env, files, i), name, group) == LoadModel(env, files, name, group)
  {
    ModelAndInstanceFilesDisjoint(env, name, group, i.instanceName, i.modelGroup);
  }

  /** Saving an Instance leaves every other Instance with a slash-free name as it was. */
  lemma {:induction false} SaveInstanceKeepsOtherInstances(env: Env, files: map<string, Document>, i: Instance, name: string, group: Option<string>)
    requires '/' !in name && '/' !in i.instanceName
    requires name != i.instanceName || !SameGroup(group, i.modelGroup)
    ensures LoadInstance(env, WithInstance(env, files, i), name, group) == LoadInstance(env, files, name, group)
  {
    InstanceFilenameInjective(env, name, group, i.instanceName, i.modelGroup);
  }

  /** Saving a Model keeps every record at the file its own name and group select. */
  lemma SaveModelKeepsWellFiled(env: Env, files: map<string, Document>, m: Model)
    requires WellFiled(env, files)
    ensures WellFiled(env, WithModel(env, files, m))
  {
  }

  /** Saving an Instance keeps every record at the file its own name and group select. */
  lemma SaveInstanceKeepsWellFiled(env: Env, files: map<string, Document>, i: Instance)
    requires WellFiled(env, files)
    ensures WellFiled(env, WithInstance(env, files, i))
  {
  }

  /**
   * On well-filed storage, `getModel(name, group)` returns a Model with
   * that name and an equivalent group, when the stored name is slash-free.
   */
  lemma {:induction false} LoadedModelMatchesQuery(env: Env, files: map<string, Document>, name: string, group: Option<string>)
    requires WellFiled(env, files) && '/' !in name
    ensures var r := LoadModel(env, files, name, group);
      r.Ok? && '/' !in r.value.modelName ==> r.value.modelName == name && SameGroup(r.value.modelGroup, group)
  {
    var r := LoadModel(env, files, name, group);
    if r.Ok? && '/' !in r.value.modelName {
      ModelFilenameInjective(env, name, group, r.value.modelName, r.value.modelGroup);
    }
  }

  /** The same for `getInstance`. */
  lemma {:induction false} LoadedInstanceMatchesQuery(env: Env, files: map<string, Document>, name: string, group: Option<string>)
    requires WellFiled(env, files) && '/' !in name
    ensures var r := LoadInstance(env, files, name, group);
      r.Ok? && '/' !in r.value.instanceName ==> r.value.instanceName == name && SameGroup(r.value.modelGroup, group)
  {
    var r := LoadInstance(env, files, name, group);
    if r.Ok? && '/' !in r.value.instanceName {
      InstanceFilenameInjective(env, name, group, r.value.instanceName, r.value.modelGroup);
    }
  }

  /** Every failed load inside `getContract` is the failure `getContract` reports. */
  lemma ResolveContractPropagatesErrors(env: Env, files: map<string, Document>, name: string, group: Option<string>, address: Option<string>)
    ensures Truthy(address) ==>
      (ResolveContract(env, files, name, group, address).Err? <==> LoadModel(env, files, name, group).Err?)
    ensures Truthy(address) && LoadModel(env, files, name, group).Err? ==>
      ResolveContract(env, files, name, group, address) == Err(LoadModel(env, files, name, group).error)
    ensures !Truthy(address) && LoadInstance(env, files, name, group).Err? ==>
      ResolveContract(env, files, name, group, address) == Err(LoadInstance(env, files, name, group).error)
    ensures !Truthy(address) && LoadInstance(env, files, name, group).Ok? ==>
      var i := LoadInstance(env, files, name, group).value;
      LoadModel(env, files, i.modelName, i.modelGroup).Err? ==>
        ResolveContract(env, files, name, group, address) == Err(LoadModel(env, files, i.modelName, i.modelGroup).error)
    ensures !Truthy(address) ==>
      (ResolveContract(env, files, name, group, address).Ok? <==>
        && LoadInstance(env, files, name, group).Ok?
        && var i := LoadInstance(env, files, name, group).value;
           LoadModel(env, files, i.modelName, i.modelGroup).Ok?)
  {
  }

  /** After `saveModel(m)`, `getContract(m.modelName, m.modelGroup, a)` binds `a` to `m`'s ABI. */
  lemma ResolveModelAfterSave(env: Env, files: map<string, Document>, m: Model, a: string)
    requires a != ""
    ensures ResolveContract(env, WithModel(env, files, m), m.modelName, m.modelGroup, Some(a)) == Ok(Binding(a, m.abi))
  {
    LoadModelAfterSaveModel(env, files, m, m.modelGroup);
  }

  /**
   * After `saveModel(m)` and then `saveInstance(i)` of an Instance that
   * references it, `getContract(i.instanceName, i.modelGroup)` binds the
   * instance's address to `m`'s ABI.
   */
  lemma {:induction false} ResolveInstanceAfterSaves(env: Env, files: map<string, Document>, m: Model, i: Instance, address: Option<string>)
    requires i.modelName == m.modelName && SameGroup(i.modelGroup, m.modelGroup)
    requires '/' !in m.modelName && '/' !in i.instanceName
    requires !Truthy(address)
    ensures ResolveContract(env, WithInstance(env, WithModel(env, files, m), i), i.instanceName, i.modelGroup, address)
         == Ok(Binding(i.instanceAddress, m.abi))
  {
    var files1 := WithModel(env, files, m);
    LoadInstanceAfterSaveInstance(env, files1, i, i.modelGroup);
    LoadModelAfterSaveModel(env, files, m, i.modelGroup);
    SaveInstanceKeepsModels(env, files1, i, m.modelName, i.modelGroup);
  }

  /**
   * The registry of one runtime environment, over the filesystem it reads
   * and writes.
   */
  class External {
    const env: Env
    var files: map<string, Document>
    var dirs: set<string>

    /**
     * Every file lies under a directory that exists, at any depth. Each save
     * creates its target directory before `WriteInto`, whose precondition
     * asks for it. A name containing `/` puts the file in a subdirectory of
     * that directory, which this predicate does not require to exist.
     */
    ghost predicate Valid()
      reads this
    {
      forall p | p in files :: InExistingDir(p, dirs)
    }

    constructor (env: Env, files: map<string, Document>, dirs: set<string>)
      requires forall p | p in files :: InExistingDir(p, dirs)
      ensures Valid()
      ensures this.env == env && this.files == files && this.dirs == dirs
    {
      this.env := env;
      this.files := files;
      this.dirs := dirs;
    }

    /**
     * `saveModel`: create the model directory if it is missing, then write
     * `m` to its file, replacing whatever was there. It cannot fail.
     */
    method SaveModel(m: Model)
      requires Valid()
      modifies this
      ensures Valid()
      ensures dirs == old(dirs) + {ModelDir(env, m.modelGroup)}
      ensures files == WithModel(env, old(files), m)
      ensures WellFiled(env, old(files)) ==> WellFiled(env, files)
    {
      var dirname := ModelDir(env, m.modelGroup);
      if dirname !in dirs {
        dirs := dirs + {dirname};
      }
      var filename := ModelFilename(env, m.modelName, m.modelGroup);
      WriteInto(dirname, filename, ModelDoc(m));
      if WellFiled(env, old(files)) {
        SaveModelKeepsWellFiled(env, old(files), m);
      }
    }

    /**
     * `saveInstance`: first load the referenced Model; if that fails, fail
     * with the same error and change nothing. Otherwise create the instance
     * directory if it is missing and write `i` to its file.
     */
    method SaveInstance(i: Instance) returns (r: Outcome<LoadError>)
      requires Valid()
      modifies this
      ensures Valid()
      ensures r.Fail? <==> LoadModel(env, old(files), i.modelName, i.modelGroup).Err?
      ensures r.Fail? ==> r.error == LoadModel(env, old(files), i.modelName, i.modelGroup).error
      ensures r.Fail? ==> files == old(files) && dirs == old(dirs)
      ensures r.Pass? ==> files == WithInstance(env, old(files), i)
      ensures r.Pass? ==> dirs == old(dirs) + {InstanceDir(env, i.modelGroup)}
      ensures WellFiled(env, old(files)) ==> WellFiled(env, files)
    {
      var check := LoadModel(env, files, i.modelName, i.modelGroup);
      if check.Err? {
        return Fail(check.error);
      }
      var dirname := InstanceDir(env, i.modelGroup);
      if dirname !in dirs {
        dirs := dirs + {dirname};
      }
      var filename := InstanceFilename(env, i.instanceName, i.modelGroup);
      WriteInto(dirname, filename, InstanceDoc(i));
      if WellFiled(env, old(files)) {
        SaveInstanceKeepsWellFiled(env, old(files), i);
      }
      r := Pass;
    }

    /** `fs.writeFileSync` of `doc` at `filename`, a file under the existing `dirname` at any depth. */
    method WriteInto(dirname: string, filename: string, doc: Document)
      requires Valid() && dirname in dirs
      requires dirname + "/" <= filename
      modifies this`files
      ensures Valid()
      ensures files == old(files)[filename := doc]
    {
      assert filename[..|dirname|] == dirname && filename[|dirname|] == '/';
      assert InExistingDir(filename, dirs);
      files := files[filename := doc];
    }
  }
}
