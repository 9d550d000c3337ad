/** The typed configuration the dispatcher reads: per-tree Pulse filters and
    parameter maps, and per-tree Jenkins job settings. The JSON shape of the
    configuration file is `config['pulse']['trees'][tree]` and
    `config['jenkins']['jobs'][tree]`. */
module Settings {
  import opened Wrappers
  import opened Values

  /** One entry of a parameter map: `{'key': ..., 'default': ...}`,
      `{'value': ...}`, or neither; optionally with `'transform'`. */
  datatype Entry = Entry(
    key: Option<string>,
    literal: Option<Value>,
    default: Option<Value>,
    transform: Option<string>)

  /** Parameter name -> entry. */
  type EntryMap = map<string, Entry>

  /** `<ci>_parameter_map`: test-run name (or `'default'`) -> entries.
      An absent map behaves like an empty one. */
  type ParameterMap = map<string, EntryMap>

  /** `config['pulse']['trees'][tree]`. */
  datatype TreeSettings = TreeSettings(
    locales: seq<string>,
    blacklistLocales: seq<string>,
    platforms: seq<string>,
    products: seq<string>,
    tags: seq<string>,
    jenkinsParameterMap: ParameterMap,
    taskclusterParameterMap: ParameterMap)

  /** `config['pulse']`: the tree catalog. */
  datatype PulseSettings = PulseSettings(trees: map<string, TreeSettings>)

  /** `config['jenkins']['jobs'][tree]`. */
  datatype JobSettings = JobSettings(testruns: seq<string>, nodes: map<string, seq<string>>)

  datatype Config = Config(pulse: PulseSettings, jobs: map<string, JobSettings>)

  /** `pulse_config['trees'][tree]`. */
  function TreeOf(cfg: PulseSettings, tree: Value): (r: Result<TreeSettings>)
    ensures r.Success? <==> tree.Str? && tree.s in cfg.trees
    ensures r.Success? ==> r.value == cfg.trees[tree.s]
  {
    if tree.Str? && tree.s in cfg.trees then Success(cfg.trees[tree.s])
    else if Hashable(tree) then Failure(KeyError(ToStr(tree)))
    else Failure(TypeError("unhashable"))
  }
}
