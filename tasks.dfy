/**
 * The bodies of the two registry commands, `external-add-model` and
 * `external-add-instance`, over an ABI that has already been fetched.
 */
module PluginTasks {
  import opened Wrappers
  import opened ExternalPaths
  import opened ExternalRegistry

  /** How a template literal renders an optional parameter: `undefined` when it is missing. */
  function Interpolate(s: Option<string>): (r: string)
    ensures s.Some? ==> r == s.value
    ensures s.None? ==> r == "undefined"
  {
    if s.Some? then s.value else "undefined"
  }

  /**
   * The Instance that `external-add-model` saves: it takes `instanceaddress`
   * when that is truthy and the ABI's `address` otherwise, and references
   * the Model saved by the same command.
   */
  function AddedInstance(model: string, group: Option<string>, address: string,
                         instance: Option<string>, instanceaddress: Option<string>): (i: Instance)
    ensures Truthy(instanceaddress) ==> i.instanceAddress == instanceaddress.value
    ensures !Truthy(instanceaddress) ==> i.instanceAddress == address
    ensures i.modelName == model && i.modelGroup == group
    ensures i.instanceName == Interpolate(instance)
  {
    Instance(Interpolate(instance), if Truthy(instanceaddress) then instanceaddress.value else address, model, group)
  }

  /**
   * `external-add-model`: save the Model built from the fetched ABI, then
   * the Instance that references it. The instance check always passes,
   * because the Model was saved just before, and with slash-free names the
   * new instance resolves to its address and the fetched ABI.
   */
  method AddModel(ext: External, model: string, group: Option<string>, address: string,
                  instance: Option<string>, instanceaddress: Option<string>, abi: seq<Fragment>)
    requires ext.Valid()
    modifies ext
    ensures ext.Valid()
    ensures ext.files
      == WithInstance(ext.env, WithModel(ext.env, old(ext.files), Model(model, group, address, abi)),
                      AddedInstance(model, group, address, instance, instanceaddress))
    ensures ext.dirs == old(ext.dirs) + {ModelDir(ext.env, group), InstanceDir(ext.env, group)}
    ensures '/' !in model && '/' !in Interpolate(instance) ==>
      ResolveContract(ext.env, ext.files, Interpolate(instance), group, None)
        == Ok(Binding(AddedInstance(model, group, address, instance, instanceaddress).instanceAddress, abi))
  {
    var m := Model(model, group, address, abi);
    ext.SaveModel(m);
    var i := AddedInstance(model, group, address, instance, instanceaddress);
    LoadModelAfterSaveModel(ext.env, old(ext.files), m, group);
    var r := ext.SaveInstance(i);
    assert r.Pass?;
    if '/' !in model && '/' !in i.instanceName {
      ResolveInstanceAfterSaves(ext.env, old(ext.files), m, i, None);
    }
  }

  /**
   * `external-add-instance`: save an Instance of `model` at `address`; it
   * fails, writing nothing, when that Model cannot be loaded.
   */
  method AddInstance(ext: External, instance: string, model: Option<string>, group: Option<string>, address: string)
    returns (r: Outcome<LoadError>)
    requires ext.Valid()
    modifies ext
    ensures ext.Valid()
    ensures r.Fail? <==> LoadModel(ext.env, old(ext.files), Interpolate(model), group).Err?
    ensures r.Fail? ==> ext.files == old(ext.files) && ext.dirs == old(ext.dirs)
    ensures r.Pass? ==> ext.dirs == old(ext.dirs) + {InstanceDir(ext.env, group)}
    ensures r.Pass? ==> ext.files == WithInstance(ext.env, old(ext.files), Instance(instance, address, Interpolate(model), group))
  {
    r := ext.SaveInstance(Instance(instance, address, Interpolate(model), group));
  }
}
