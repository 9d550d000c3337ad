/** The parameter mapper (`generate_job_parameters`, lib/automation.py:124-161):
    the per-tree parameter map of the CI system merged with the test run's
    overrides, each entry resolved from the build properties, optionally
    transformed, and `NODES` set to the node. */
module Parameters {
  import opened Wrappers
  import opened Values
  import opened Settings

  /** The CI system a node belongs to: only the node `taskcluster` is not Jenkins. */
  function ParameterMapOf(t: TreeSettings, node: string): (pm: ParameterMap)
    ensures node == "taskcluster" ==> pm == t.taskclusterParameterMap
    ensures node != "taskcluster" ==> pm == t.jenkinsParameterMap
  {
    if node == "taskcluster" then t.taskclusterParameterMap else t.jenkinsParameterMap
  }

  /** The default entries updated with the test run's entries, key by key. */
  function MergedEntries(pm: ParameterMap, testrun: string): (entries: EntryMap)
    ensures testrun in pm ==> forall k :: k in pm[testrun] ==> k in entries && entries[k] == pm[testrun][k]
    ensures "default" in pm ==> forall k :: k in pm["default"] && (testrun !in pm || k !in pm[testrun]) ==>
              k in entries && entries[k] == pm["default"][k]
    ensures forall k :: k in entries ==>
              ("default" in pm && k in pm["default"]) || (testrun in pm && k in pm[testrun])
  {
    var defaults := if "default" in pm then pm["default"] else map[];
    var overrides := if testrun in pm then pm[testrun] else map[];
    defaults + overrides
  }

  /** The value of one entry before any transform: the property named by
      `key` (or the entry's default, `None` when absent), else the literal
      `value`, else the whole property map. */
  function Lookup(e: Entry, props: Props): (v: Value)
    ensures e.key.Some? && e.key.value in props ==> v == props[e.key.value]
    ensures e.key.Some? && e.key.value !in props ==> v == e.default.GetOr(Null)
    ensures e.key.None? && e.literal.Some? ==> v == e.literal.value
    ensures e.key.None? && e.literal.None? ==> v == Obj(props)
  {
    match e.key
    case Some(k) => Get(props, k, e.default.GetOr(Null))
    case None =>
      match e.literal
      case Some(x) => x
      case None => Obj(props)
  }

  /** One entry, with its transform (a named method) applied last. */
  function Resolve(e: Entry, props: Props, transform: (string, Value) -> Result<Value>): (r: Result<Value>)
    ensures e.transform.None? ==> r == Success(Lookup(e, props))
    ensures e.transform.Some? ==> r == transform(e.transform.value, Lookup(e, props))
  {
    match e.transform
    case None => Success(Lookup(e, props))
    case Some(name) => transform(name, Lookup(e, props))
  }

  /** The parameters of all entries, `NODES` set last.  Entries are visited
      in dictionary order, which Python leaves unspecified, so a failing
      transform is reported without saying which one failed. */
  function ResolveAll(entries: EntryMap, props: Props, node: string,
                      transform: (string, Value) -> Result<Value>): (r: Result<Props>)
    ensures r.Success? <==> forall k :: k in entries ==> Resolve(entries[k], props, transform).Success?
    ensures r.Success? ==> r.value.Keys == entries.Keys + {"NODES"}
    ensures r.Success? ==> r.value["NODES"] == Str(node)
    ensures r.Success? ==> forall k :: k in entries && k != "NODES" ==>
              r.value[k] == Resolve(entries[k], props, transform).value
  {
    if forall k :: k in entries ==> Resolve(entries[k], props, transform).Success? then
      var values := map k | k in entries :: Resolve(entries[k], props, transform).value;
      Success(values["NODES" := Str(node)])
    else Failure(External("parameter transform"))
  }

  /** `generate_job_parameters(testrun, node, **props)`. */
  function JobParameters(cfg: PulseSettings, testrun: string, node: string, props: Props,
                         transform: (string, Value) -> Result<Value>): (r: Result<Props>)
    ensures "tree" !in props ==> r == Failure(KeyError("tree"))
    ensures "tree" in props && !(props["tree"].Str? && props["tree"].s in cfg.trees) ==> r.Failure?
    ensures r.Success? ==> "tree" in props && props["tree"].Str? && props["tree"].s in cfg.trees
    ensures r.Success? ==>
              var entries := MergedEntries(ParameterMapOf(cfg.trees[props["tree"].s], node), testrun);
              ResolveAll(entries, props, node, transform) == r
  {
    var tree :- At(props, "tree");
    var t :- TreeOf(cfg, tree);
    ResolveAll(MergedEntries(ParameterMapOf(t, node), testrun), props, node, transform)
  }

  /** `NODES` is always the node, whatever the map says. */
  lemma NodesAlwaysSet(cfg: PulseSettings, testrun: string, node: string, props: Props,
                       transform: (string, Value) -> Result<Value>)
    requires JobParameters(cfg, testrun, node, props, transform).Success?
    ensures var p := JobParameters(cfg, testrun, node, props, transform).value;
      "NODES" in p && p["NODES"] == Str(node)
  {
  }

  /** Without a parameter map for the CI system the result is exactly `{NODES: node}`. */
  lemma EmptyMapOnlyNodes(cfg: PulseSettings, testrun: string, node: string, props: Props,
                          transform: (string, Value) -> Result<Value>)
    requires "tree" in props && props["tree"].Str? && props["tree"].s in cfg.trees
    requires ParameterMapOf(cfg.trees[props["tree"].s], node) == map[]
    ensures JobParameters(cfg, testrun, node, props, transform) == Success(map["NODES" := Str(node)])
  {
    var r := JobParameters(cfg, testrun, node, props, transform);
    assert r.value.Keys == {"NODES"};
  }

  /** A `key` is looked up even when the entry also has a literal `value`. */
  lemma KeyBeforeValue(key: string, literal: Value, props: Props)
    requires key in props
    ensures Lookup(Entry(Some(key), Some(literal), None, None), props) == props[key]
  {
  }

  /** Overriding a test run's entry affects that parameter alone: every other
      parameter resolves from the default entry. */
  lemma OverrideOnlyTouchesItsKey(pm: ParameterMap, testrun: string, k: string, other: string)
    requires "default" in pm && testrun in pm
    requires k in pm[testrun] && other in pm["default"] && other !in pm[testrun]
    ensures MergedEntries(pm, testrun)[k] == pm[testrun][k]
    ensures MergedEntries(pm, testrun)[other] == pm["default"][other]
  {
  }
}
