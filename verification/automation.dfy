/** The dispatcher's `process_build` (lib/automation.py:326-467): a build
    record from the queues becomes a log file written once, a broken-build
    gate, and one dispatch unit per enabled test run and node of the build's
    platform, each of which ends in exactly one trace event, followed by one
    pause per test run.

    Effects are values: the log folder is a map from path to the JSON stored
    there, and dispatch is a trace of events. Jenkins, Taskcluster, the
    Treeherder revision search and the disk are oracles in `Services`. */
module Automation {
  import opened Wrappers
  import opened Strings
  import opened Values
  import opened Settings
  import opened Timestamps
  import opened Locator
  import opened Parameters

  /** What one dispatch unit left behind, and the pause between test runs. */
  datatype Event =
    | Shown(job: string, node: string)                            // display-only mode
    | Triggered(job: string, node: string, parameters: Props)     // jenkins.build_job
    | TaskCreated(job: string, node: string, taskId: Value)       // Taskcluster task
    | UnitFailed(job: string, node: string)                       // exception logged and dropped
    | Pause                                                       // time.sleep(2.5)

  /** The log folder and the dispatch trace. */
  datatype World = World(files: map<string, Value>, trace: seq<Event>)

  /** The world after one call, and the exception it raised, if any. */
  datatype Outcome = Outcome(world: World, error: Option<Error>)

  /** The collaborators `process_build` calls. */
  datatype Services = Services(
    lookup: Lookup,
    canWrite: string -> bool,                    // JSONFile(path).write does not raise
    buildJob: (string, Props) -> Check,          // jenkins.build_job(job, parameters)
    revisionInfo: Props -> Result<Props>,        // revision_hash and treeherder_instance
    taskPayload: (string, Props) -> Result<Value>,   // FirefoxUIWorker.generate_task_payload
    createTask: (string, Value) -> Result<Value>)    // createTestTask(...)['status']['taskId']

  datatype Dispatcher = Dispatcher(config: Config, logFolder: string, displayOnly: bool, services: Services)

  // ---------------------------------------------------------------------
  // Before the gate (lib/automation.py:346-378)
  // ---------------------------------------------------------------------

  /** The buildid a repack notification's `timestamp` stands for, when it
      has a string timestamp `strptime` accepts. */
  function TimestampBuildId(raw: Value): Option<string> {
    if raw.Obj? && "timestamp" in raw.fields && raw.fields["timestamp"].Str? then
      BuildIdFromTimestamp(raw.fields["timestamp"].s)
    else None
  }

  /** A falsy buildid is replaced by the one derived from the notification's
      timestamp; a timestamp that does not parse is ignored. */
  function DeriveBuildId(props: Props): (r: Result<Props>)
    ensures r.Success? <==> ("buildid" in props &&
              (Truthy(props["buildid"]) || ("raw_json" in props && PyIn(Str("timestamp"), props["raw_json"]).Success?)))
    ensures r.Success? ==> r.value.Keys == props.Keys
    ensures r.Success? ==> forall k :: k in props && k != "buildid" ==> r.value[k] == props[k]
    ensures r.Success? && r.value["buildid"] != props["buildid"] ==>
              && !Truthy(props["buildid"]) && TimestampBuildId(props["raw_json"]).Some?
              && r.value["buildid"] == Str(TimestampBuildId(props["raw_json"]).value)
    ensures "buildid" in props && !Truthy(props["buildid"]) && "raw_json" in props
            && TimestampBuildId(props["raw_json"]).Some? ==>
              r == Success(props["buildid" := Str(TimestampBuildId(props["raw_json"]).value)])
  {
    var buildid :- At(props, "buildid");
    if Truthy(buildid) then Success(props)
    else
      var raw :- At(props, "raw_json");
      var hasTimestamp :- PyIn(Str("timestamp"), raw);
      if !hasTimestamp then Success(props)
      else
        match TimestampBuildId(raw)
        case Some(id) => Success(props["buildid" := Str(id)])
        case None => Success(props)
  }

  /** A rendered timestamp gives back its minute-precision buildid. */
  lemma DerivedFromRenderedTimestamp(props: Props, dt: DateTime)
    requires Valid(dt) && dt.year >= 1900
    requires "buildid" in props && !Truthy(props["buildid"])
    requires "raw_json" in props && props["raw_json"].Obj?
    requires "timestamp" in props["raw_json"].fields && props["raw_json"].fields["timestamp"] == Str(Render(dt))
    ensures BuildIdOf(dt).Some?
    ensures DeriveBuildId(props) == Success(props["buildid" := Str(BuildIdOf(dt).value)])
  {
    BuildIdOfRendered(dt);
  }

  /** Whether the build is an update test: a truthy `target_buildid`. */
  predicate IsUpdate(props: Props) {
    Truthy(Get(props, "target_buildid", Null))
  }

  /** The fields the console line of a build names. */
  predicate HasLogFields(props: Props) {
    && "product" in props && "buildid" in props && "revision" in props
    && "locale" in props && "platform" in props && "branch" in props
    && (if IsUpdate(props) then "target_version" in props else "version" in props)
  }

  /** The fields of the console line, in the order its template names them. */
  function LogFields(props: Props): (fields: seq<string>)
    ensures IsUpdate(props) ==> "target_version" in fields && "target_buildid" in fields
    ensures !IsUpdate(props) ==> "version" in fields
    ensures forall f :: f in ["product", "buildid", "revision", "locale", "platform", "branch"] ==> f in fields
  {
    if IsUpdate(props) then ["product", "target_version", "buildid", "target_buildid", "revision", "locale", "platform", "branch"]
    else ["product", "version", "buildid", "revision", "locale", "platform", "branch"]
  }

  /** Whether a byte-string `str.format` can take the value: a (unicode)
      string must be ASCII, and every other value formats through its
      ASCII representation. */
  predicate Encodable(v: Value) {
    !v.Str? || forall k :: 0 <= k < |v.s| ==> v.s[k] < 128 as char
  }

  /** Byte-string `str.format` over the named fields, left to right: a
      missing field raises `KeyError`, and a non-ASCII string
      `UnicodeEncodeError`, a `ValueError`. */
  function FormatFields(props: Props, fields: seq<string>): (c: Check)
    ensures c.Pass? <==> forall k :: 0 <= k < |fields| ==> fields[k] in props && Encodable(props[fields[k]])
    ensures c.Raise? ==> (c.error.KeyError? && c.error.key in fields && c.error.key !in props)
                         || c.error == ValueError("UnicodeEncodeError")
    decreases |fields|
  {
    if |fields| == 0 then Pass
    else if fields[0] !in props then Raise(KeyError(fields[0]))
    else if !Encodable(props[fields[0]]) then Raise(ValueError("UnicodeEncodeError"))
    else FormatFields(props, fields[1..])
  }

  /** The console line's fields are all present exactly when the record
      has the fields of a build's console line. */
  lemma LogFieldsPresent(props: Props)
    ensures HasLogFields(props) <==> forall k :: 0 <= k < |LogFields(props)| ==> LogFields(props)[k] in props
  {
    var fields := LogFields(props);
    assert IsUpdate(props) ==> "target_buildid" in props;
    if forall k :: 0 <= k < |fields| ==> fields[k] in props {
      assert fields[0] in props && fields[1] in props && fields[2] in props && fields[3] in props;
      assert fields[4] in props && fields[5] in props && fields[6] in props;
      assert IsUpdate(props) ==> fields[7] in props;
    }
  }

  /** The console line. A field the properties lack raises `KeyError`, and
      a non-ASCII string `UnicodeEncodeError`, whichever comes first in the
      template. */
  function LogLine(props: Props): (c: Check)
    ensures c.Pass? <==> HasLogFields(props) && forall k :: 0 <= k < |LogFields(props)| ==>
                           LogFields(props)[k] in props && Encodable(props[LogFields(props)[k]])
    ensures c.Raise? ==> (c.error.KeyError? && c.error.key !in props) || c.error == ValueError("UnicodeEncodeError")
    ensures (forall f :: f in props ==> Encodable(props[f])) ==> (c.Pass? <==> HasLogFields(props))
  {
    LogFieldsPresent(props);
    FormatFields(props, LogFields(props))
  }

  /** The log file name: buildid, product, locale and platform, prefixed by
      the target buildid of an update test. */
  function LogName(props: Props): (name: string)
    requires HasLogFields(props)
    ensures EndsWith(name, ToStr(props["platform"]) + ".log")
    ensures IsUpdate(props) ==> StartsWith(name, ToStr(props["target_buildid"]) + "_")
  {
    var base := ToStr(props["buildid"]) + "_" + ToStr(props["product"]) + "_" + ToStr(props["locale"])
                + "_" + (ToStr(props["platform"]) + ".log");
    assert EndsWith(base, ToStr(props["platform"]) + ".log") by {
      var tail := ToStr(props["platform"]) + ".log";
      assert base[|base| - |tail|..] == tail;
    }
    if IsUpdate(props) then
      var prefix := ToStr(props["target_buildid"]) + "_";
      assert (prefix + base)[..|prefix|] == prefix;
      assert (prefix + base)[|prefix + base| - |ToStr(props["platform"]) + ".log"|..]
          == base[|base| - |ToStr(props["platform"]) + ".log"|..];
      prefix + base
    else base
  }

  /** `os.path.join(log_folder, tree, name)`; a tree that is not a string
      has no `startswith`. */
  function LogPath(folder: string, props: Props): (r: Result<string>)
    requires HasLogFields(props)
    ensures r.Success? <==> "tree" in props && props["tree"].Str?
    ensures r.Success? ==> EndsWith(r.value, LogName(props))
  {
    var tree :- At(props, "tree");
    if !tree.Str? then Failure(AttributeError("startswith"))
    else Success(PathJoin(PathJoin(folder, tree.s), LogName(props)))
  }

  /** With relative components the log sits in the tree's folder under the
      log folder. */
  lemma LogPathInTreeFolder(folder: string, props: Props)
    requires HasLogFields(props) && "tree" in props && props["tree"].Str?
    requires folder != "" && !EndsWith(folder, "/")
    requires !StartsWith(props["tree"].s, "/") && props["tree"].s != "" && !EndsWith(props["tree"].s, "/")
    requires !StartsWith(LogName(props), "/")
    ensures LogPath(folder, props) == Success(folder + "/" + props["tree"].s + "/" + LogName(props))
  {
    var tree := props["tree"].s;
    var dir := folder + "/" + tree;
    assert dir[|dir| - 1] == tree[|tree| - 1];
    assert !EndsWith(dir, "/") by {
      assert dir[|dir| - 1..] == tree[|tree| - 1..];
    }
  }

  /** Store the raw notification unless the log file exists; a write that
      fails (a missing `raw_json`, a disk error) is only logged. */
  function WriteLog(files: map<string, Value>, path: string, props: Props, canWrite: string -> bool)
    : (r: map<string, Value>)
    ensures forall p :: p in files ==> p in r && r[p] == files[p]
    ensures r.Keys <= files.Keys + {path}
    ensures path in r && path !in files ==> "raw_json" in props && r[path] == props["raw_json"]
    ensures path !in files && "raw_json" in props && canWrite(path) ==> path in r
  {
    if path !in files && "raw_json" in props && canWrite(path) then files[path := props["raw_json"]]
    else files
  }

  /** The first notification for a log path is the one kept. */
  lemma {:induction false} FirstLogWins(files: map<string, Value>, path: string, first: Props, second: Props,
                                        canWrite: string -> bool)
    requires "raw_json" in first && canWrite(path)
    ensures var once := WriteLog(files, path, first, canWrite);
      WriteLog(once, path, second, canWrite) == once
      && path in once && (path !in files ==> once[path] == first["raw_json"])
  {
    var once := WriteLog(files, path, first, canWrite);
    assert path in once;
  }

  /** Everything up to the log write: the record with its derived buildid,
      after the console line, and the log path. */
  function Announce(folder: string, props: Props): (r: Result<(Props, string)>)
    ensures r.Success? ==> HasLogFields(r.value.0) && DeriveBuildId(props) == Success(r.value.0)
    ensures r.Success? ==> LogPath(folder, r.value.0) == Success(r.value.1)
  {
    var p :- DeriveBuildId(props);
    :- LogLine(p);
    var path :- LogPath(folder, p);
    Success((p, path))
  }

  // ---------------------------------------------------------------------
  // The broken-build gate (lib/automation.py:346-347, 380-384)
  // ---------------------------------------------------------------------

  /** Buildbot's result names, indexed by status. */
  const BuildbotResults: seq<string> := ["success", "warnings", "failure", "skipped", "exception", "retry"]

  /** The exception the gate raises for a status: a `ValueError` naming the
      result when the status indexes the list (negative indices count from
      the end), else the failure of the index itself. */
  function StatusError(status: Value): (e: Error)
    ensures Number(status).Some? && 0 <= Number(status).value < 6 ==>
              e == ValueError(BuildbotResults[Number(status).value])
  {
    match Number(status)
    case Some(n) =>
      if 0 <= n < 6 then ValueError(BuildbotResults[n])
      else if -6 <= n < 0 then ValueError(BuildbotResults[n + 6])
      else IndexError(n)
    case None => TypeError("list indices")
  }

  /** Only a falsy status, or one equal to 0 or 5, lets the build through. */
  function BrokenBuildGate(props: Props): (c: Check)
    ensures c.Pass? <==> !Truthy(Get(props, "status", Null)) || Number(Get(props, "status", Null)) == Some(5)
  {
    var status := Get(props, "status", Null);
    if Truthy(status) && !PyEq(status, Int(0)) && !PyEq(status, Int(5)) then Raise(StatusError(status))
    else Pass
  }

  /** The gate in Buildbot's terms: success, retry and a missing status
      pass; warnings, failure, skipped and exception stop with their name. */
  lemma GateByResult(props: Props, n: int)
    requires 0 <= n < 6 && "status" in props && props["status"] == Int(n)
    ensures BrokenBuildGate(props).Pass? <==> BuildbotResults[n] in {"success", "retry"}
    ensures BrokenBuildGate(props).Raise? ==> BrokenBuildGate(props).error == ValueError(BuildbotResults[n])
  {
  }

  // ---------------------------------------------------------------------
  // Dispatch (lib/automation.py:386-467)
  // ---------------------------------------------------------------------

  /** The transforms a parameter map may name. */
  function TransformOf(d: Dispatcher): (string, Value) -> Result<Value> {
    (name: string, value: Value) => Transform(d.services.lookup, name, value)
  }

  /** The dispatch functions below receive the transforms as `tf`, which
      `ProcessBuild` sets to `TransformOf(d)`. */
  type Transforms = (string, Value) -> Result<Value>

  /** `generate_job_parameters(testrun, node, **props)`; a property named
      like one of its own parameters clashes with it. */
  function CallJobParameters(d: Dispatcher, tf: Transforms, testrun: string, node: string, props: Props)
    : (r: Result<Props>)
    ensures "self" in props || "testrun" in props || "node" in props ==> r.Failure?
    ensures !("self" in props || "testrun" in props || "node" in props) ==>
              r == JobParameters(d.config.pulse, testrun, node, props, tf)
  {
    if "self" in props || "testrun" in props || "node" in props then Failure(TypeError("multiple values"))
    else JobParameters(d.config.pulse, testrun, node, props, tf)
  }

  /** A Jenkins node: the parameters, then the trigger (or only the display). */
  function JenkinsUnit(d: Dispatcher, tf: Transforms, testrun: string, node: string, job: string, props: Props): (e: Event)
    ensures !e.Pause? && e.job == job && e.node == node
    ensures !e.TaskCreated?
    ensures d.displayOnly ==> !e.Triggered?
  {
    match CallJobParameters(d, tf, testrun, node, props)
    case Failure(_) => UnitFailed(job, node)
    case Success(parameters) =>
      if d.displayOnly then Shown(job, node)
      else if d.services.buildJob(job, parameters).Pass? then Triggered(job, node, parameters)
      else UnitFailed(job, node)
  }

  /** The Taskcluster node: the record grows by the revision information and
      the generated parameters, which stay in it for the later units even
      when the task cannot be created. */
  function TaskclusterUnit(d: Dispatcher, tf: Transforms, testrun: string, job: string, props: Props): (r: (Props, Event))
    ensures props.Keys <= r.0.Keys
    ensures !r.1.Pause? && r.1.job == job && r.1.node == "taskcluster"
    ensures !r.1.Triggered?
    ensures d.displayOnly ==> !r.1.TaskCreated?
  {
    var node := "taskcluster";
    match d.services.revisionInfo(props)
    case Failure(_) => (props, UnitFailed(job, node))
    case Success(info) =>
      var p1 := props + info;
      match CallJobParameters(d, tf, testrun, node, p1)
      case Failure(_) => (p1, UnitFailed(job, node))
      case Success(parameters) =>
        var p2 := p1 + parameters;
        match d.services.taskPayload(testrun, p2)
        case Failure(_) => (p2, UnitFailed(job, node))
        case Success(payload) =>
          if d.displayOnly then (p2, Shown(job, node))
          else
            match d.services.createTask(testrun, payload)
            case Failure(_) => (p2, UnitFailed(job, node))
            case Success(id) => (p2, TaskCreated(job, node, id))
  }

  /** `'{}_{}'.format(tree, testrun)`. */
  function JobName(tree: Value, testrun: string): string {
    ToStr(tree) + "_" + testrun
  }

  /** No unit event left a trigger behind. */
  predicate NothingTriggered(events: seq<Event>) {
    forall k :: 0 <= k < |events| ==> !events[k].Triggered? && !events[k].TaskCreated?
  }

  /** One node of a test run: the Taskcluster branch or a Jenkins node. */
  function NodeUnit(d: Dispatcher, tf: Transforms, testrun: string, node: string, job: string, props: Props): (r: (Props, Event))
    ensures props.Keys <= r.0.Keys
    ensures !r.1.Pause? && r.1.job == job && r.1.node == node
    ensures d.displayOnly ==> !r.1.Triggered? && !r.1.TaskCreated?
    ensures node != "taskcluster" ==> r.0 == props
  {
    if node == "taskcluster" then TaskclusterUnit(d, tf, testrun, job, props)
    else (props, JenkinsUnit(d, tf, testrun, node, job, props))
  }

  /** The node loop of one test run: each node yields exactly one event,
      whatever happens to the others. */
  function NodeLoop(d: Dispatcher, tf: Transforms, testrun: string, nodes: seq<string>, props: Props): (r: (Props, seq<Event>))
    requires "tree" in props
    ensures props.Keys <= r.0.Keys
    ensures |r.1| == |nodes|
    ensures forall k :: 0 <= k < |nodes| ==> !r.1[k].Pause? && r.1[k].node == nodes[k]
    ensures d.displayOnly ==> NothingTriggered(r.1)
    decreases |nodes|
  {
    if |nodes| == 0 then (props, [])
    else
      var unit := NodeUnit(d, tf, testrun, nodes[0], JobName(props["tree"], testrun), props);
      var rest := NodeLoop(d, tf, testrun, nodes[1..], unit.0);
      Cons(unit.1, rest.1);
      (rest.0, [unit.1] + rest.1)
  }

  /** Jenkins nodes leave the record alone, so every unit of the test run
      carries the same job name, node by node. */
  lemma {:induction false} JenkinsNodeLoop(d: Dispatcher, tf: Transforms, testrun: string, nodes: seq<string>, props: Props)
    requires "tree" in props && "taskcluster" !in nodes
    ensures NodeLoop(d, tf, testrun, nodes, props).0 == props
    ensures Slots(NodeLoop(d, tf, testrun, nodes, props).1) == UnitsOf(props["tree"], testrun, nodes)
    decreases |nodes|
  {
    if |nodes| > 0 {
      JenkinsNodeLoop(d, tf, testrun, nodes[1..], props);
      var unit := NodeUnit(d, tf, testrun, nodes[0], JobName(props["tree"], testrun), props);
      var rest := NodeLoop(d, tf, testrun, nodes[1..], props).1;
      Cons(unit.1, rest);
      assert forall k :: 0 <= k < |rest| ==> Slots(rest)[k] == UnitsOf(props["tree"], testrun, nodes)[k + 1];
    }
  }

  /** Indexing into a sequence with one event in front. */
  lemma Cons(e: Event, rest: seq<Event>)
    ensures ([e] + rest)[0] == e
    ensures forall k :: 0 <= k < |rest| ==> ([e] + rest)[k + 1] == rest[k]
  {
  }

  /** Traces without triggers stay so when joined by a pause. */
  lemma NothingTriggeredJoin(units: seq<Event>, rest: seq<Event>)
    requires NothingTriggered(units) && NothingTriggered(rest)
    ensures NothingTriggered(units + [Pause] + rest)
  {
    var events := units + [Pause] + rest;
    forall k | 0 <= k < |events|
      ensures !events[k].Triggered? && !events[k].TaskCreated?
    {
      if k > |units| { assert events[k] == rest[k - |units| - 1]; }
    }
  }

  /** The nodes configured for a platform identifier. */
  function NodesOf(jobs: JobSettings, platformId: Value): (r: Result<seq<string>>)
    ensures r.Success? <==> platformId.Str? && platformId.s in jobs.nodes
    ensures r.Success? ==> r.value == jobs.nodes[platformId.s]
  {
    if platformId.Str? && platformId.s in jobs.nodes then Success(jobs.nodes[platformId.s])
    else Failure(KeyError(ToStr(platformId)))
  }

  /** Whether a test run is among the record's allowed test runs. */
  function IsAllowed(props: Props, testrun: string): Result<bool> {
    var allowed :- At(props, "allowed_testruns");
    PyIn(Str(testrun), allowed)
  }

  /** What a loop left behind: the record, the events, and the exception
      that ended it early, if any. */
  datatype Run = Run(props: Props, events: seq<Event>, error: Option<Error>)

  /** The test-run loop: a test run that is not allowed is skipped without a
      pause; an allowed one runs its node loop and then pauses. */
  function TestrunLoop(d: Dispatcher, tf: Transforms, jobs: JobSettings, testruns: seq<string>, platformId: Value, props: Props)
    : (r: Run)
    requires "tree" in props
    ensures d.displayOnly ==> NothingTriggered(r.events)
    decreases |testruns|
  {
    if |testruns| == 0 then Run(props, [], None)
    else
      match IsAllowed(props, testruns[0])
      case Failure(e) => Run(props, [], Some(e))
      case Success(allowed) =>
        if !allowed then TestrunLoop(d, tf, jobs, testruns[1..], platformId, props)
        else
          match NodesOf(jobs, platformId)
          case Failure(e) => Run(props, [], Some(e))
          case Success(nodes) =>
            var loop := NodeLoop(d, tf, testruns[0], nodes, props);
            var units := loop.1;
            var rest := TestrunLoop(d, tf, jobs, testruns[1..], platformId, loop.0);
            if d.displayOnly then
              NothingTriggeredJoin(units, rest.events);
              Run(rest.props, units + [Pause] + rest.events, rest.error)
            else Run(rest.props, units + [Pause] + rest.events, rest.error)
  }

  // ---------------------------------------------------------------------
  // The dispatch plan
  // ---------------------------------------------------------------------

  /** An event seen only as the slot it fills: a unit for a job on a node,
      or the pause after a test run. */
  datatype Slot = Unit(job: string, node: string) | Break

  function SlotOf(e: Event): Slot {
    if e.Pause? then Break else Unit(e.job, e.node)
  }

  function Slots(events: seq<Event>): (r: seq<Slot>)
    ensures |r| == |events|
    ensures forall k :: 0 <= k < |events| ==> r[k] == SlotOf(events[k])
  {
    seq(|events|, k requires 0 <= k < |events| => SlotOf(events[k]))
  }

  /** The units of one test run: its job on each node, in order. */
  function UnitsOf(tree: Value, testrun: string, nodes: seq<string>): (r: seq<Slot>)
    ensures |r| == |nodes|
    ensures forall k :: 0 <= k < |nodes| ==> r[k] == Unit(JobName(tree, testrun), nodes[k])
  {
    seq(|nodes|, k requires 0 <= k < |nodes| => Unit(JobName(tree, testrun), nodes[k]))
  }

  /** Slots distribute over a pause between two traces. */
  lemma SlotsJoin(units: seq<Event>, rest: seq<Event>)
    ensures Slots(units + [Pause] + rest) == Slots(units) + [Break] + Slots(rest)
  {
    var events := units + [Pause] + rest;
    assert forall k :: |units| < k < |events| ==> events[k] == rest[k - |units| - 1];
  }

  /** The units `process_build` promises for Jenkins nodes: for every
      configured test run that is allowed, the job on each node in order,
      then a pause. */
  function Plan(tree: Value, testruns: seq<string>, allowed: seq<Value>, nodes: seq<string>): seq<Slot>
    decreases |testruns|
  {
    if |testruns| == 0 then []
    else
      var rest := Plan(tree, testruns[1..], allowed, nodes);
      if Str(testruns[0]) in allowed then UnitsOf(tree, testruns[0], nodes) + [Break] + rest
      else rest
  }

  /** Python's `in` on a list of test-run names. */
  lemma AllowedIffListed(allowed: seq<Value>, testrun: string)
    ensures PyIn(Str(testrun), List(allowed)) == Success(Str(testrun) in allowed)
  {
    if Str(testrun) in allowed {
      var k :| 0 <= k < |allowed| && allowed[k] == Str(testrun);
      assert PyEq(allowed[k], Str(testrun));
    }
  }

  /** With Jenkins nodes only, dispatch follows the plan exactly: one event
      per allowed test run and node, whether its trigger succeeded or not,
      and one pause per allowed test run; the record is left as it was. */
  lemma {:induction false} DispatchFollowsPlan(d: Dispatcher, tf: Transforms, jobs: JobSettings, testruns: seq<string>,
                                               platformId: Value, props: Props)
    requires "tree" in props && "allowed_testruns" in props && props["allowed_testruns"].List?
    requires platformId.Str? && platformId.s in jobs.nodes && "taskcluster" !in jobs.nodes[platformId.s]
    ensures var r := TestrunLoop(d, tf, jobs, testruns, platformId, props);
      && r.error.None? && r.props == props
      && Slots(r.events) == Plan(props["tree"], testruns, props["allowed_testruns"].items, jobs.nodes[platformId.s])
    decreases |testruns|
  {
    if |testruns| > 0 {
      var allowed := props["allowed_testruns"].items;
      var nodes := jobs.nodes[platformId.s];
      AllowedIffListed(allowed, testruns[0]);
      DispatchFollowsPlan(d, tf, jobs, testruns[1..], platformId, props);
      if Str(testruns[0]) in allowed {
        JenkinsNodeLoop(d, tf, testruns[0], nodes, props);
        SlotsJoin(NodeLoop(d, tf, testruns[0], nodes, props).1,
                  TestrunLoop(d, tf, jobs, testruns[1..], platformId, props).events);
      }
    }
  }

  // ---------------------------------------------------------------------
  // process_build
  // ---------------------------------------------------------------------

  /** What dispatch needs after the gate: the tree's job settings, the
      platform identifier, and the record with the installer, test-packages
      and mozharness URLs filled in. */
  function PrepareDispatch(d: Dispatcher, props: Props): (r: Result<(JobSettings, Value, Props)>)
    requires "tree" in props && props["tree"].Str? && "platform" in props
    ensures r.Success? ==> props["tree"].s in d.config.jobs && r.value.0 == d.config.jobs[props["tree"].s]
    ensures r.Success? ==> Success(r.value.1) == PlatformIdentifier(props["platform"])
    ensures r.Success? ==> props.Keys + {"build_url", "test_packages_url", "mozharness_url"} == r.value.2.Keys
    ensures r.Success? ==> forall k :: k in props && k !in {"build_url", "test_packages_url", "mozharness_url"} ==>
              r.value.2[k] == props[k]
  {
    var tree := props["tree"].s;
    if tree !in d.config.jobs then Failure(KeyError(tree))
    else
      var platformId :- PlatformIdentifier(props["platform"]);
      var installer :- InstallerUrl(d.services.lookup, props);
      var p1 := props["build_url" := installer];
      var packages :- TestPackagesUrl(d.services.lookup, p1);
      var p2 := p1["test_packages_url" := packages];
      var mozharness :- MozharnessUrl(d.services.lookup, packages);
      Success((d.config.jobs[tree], platformId, p2["mozharness_url" := mozharness]))
  }

  /** Everything after the log write: the broken-build gate, then dispatch.
      The log folder is not touched again. */
  function GateAndDispatch(d: Dispatcher, w: World, p: Props): (o: Outcome)
    requires "tree" in p && p["tree"].Str? && "platform" in p
    ensures o.world.files == w.files
    ensures |w.trace| <= |o.world.trace| && o.world.trace[..|w.trace|] == w.trace
    ensures BrokenBuildGate(p).Raise? ==> o == Outcome(w, Some(BrokenBuildGate(p).error))
    ensures d.displayOnly ==> NothingTriggered(o.world.trace[|w.trace|..])
  {
    match BrokenBuildGate(p)
    case Raise(e) => Outcome(w, Some(e))
    case Pass =>
      match PrepareDispatch(d, p)
      case Failure(e) => Outcome(w, Some(e))
      case Success((jobs, platformId, q)) =>
        var run := TestrunLoop(d, TransformOf(d), jobs, jobs.testruns, platformId, q);
        assert (w.trace + run.events)[|w.trace|..] == run.events;
        Outcome(w.(trace := w.trace + run.events), run.error)
  }

  /** `process_build(**props)`. The log is written before the gate, so a
      broken build is still logged; files already in the log folder are
      never changed, and the trace only grows. */
  function ProcessBuild(d: Dispatcher, w: World, props: Props): (o: Outcome)
    ensures |w.trace| <= |o.world.trace| && o.world.trace[..|w.trace|] == w.trace
    ensures forall p :: p in w.files ==> p in o.world.files && o.world.files[p] == w.files[p]
    ensures Announce(d.logFolder, props).Failure? ==> o == Outcome(w, Some(Announce(d.logFolder, props).error))
    ensures Announce(d.logFolder, props).Success? ==>
              o.world.files == WriteLog(w.files, Announce(d.logFolder, props).value.1,
                                        Announce(d.logFolder, props).value.0, d.services.canWrite)
    ensures Announce(d.logFolder, props).Success? && BrokenBuildGate(Announce(d.logFolder, props).value.0).Raise? ==>
              o.error.Some? && o.world.trace == w.trace
    ensures d.displayOnly ==> NothingTriggered(o.world.trace[|w.trace|..])
  {
    match Announce(d.logFolder, props)
    case Failure(e) => Outcome(w, Some(e))
    case Success((p, path)) => GateAndDispatch(d, w.(files := WriteLog(w.files, path, p, d.services.canWrite)), p)
  }

  /** A build that passes every step before dispatch, on a platform served
      by Jenkins nodes only, appends exactly the planned units and pauses. */
  lemma ProcessBuildDispatch(d: Dispatcher, w: World, props: Props)
    requires Announce(d.logFolder, props).Success?
    requires var p := Announce(d.logFolder, props).value.0;
      && BrokenBuildGate(p).Pass? && PrepareDispatch(d, p).Success?
      && "allowed_testruns" in p && p["allowed_testruns"].List?
      && var (jobs, platformId, _) := PrepareDispatch(d, p).value;
      platformId.Str? && platformId.s in jobs.nodes && "taskcluster" !in jobs.nodes[platformId.s]
    ensures var p := Announce(d.logFolder, props).value.0;
      var (jobs, platformId, _) := PrepareDispatch(d, p).value;
      var o := ProcessBuild(d, w, props);
      && o.error.None?
      && Slots(o.world.trace[|w.trace|..])
         == Plan(p["tree"], jobs.testruns, p["allowed_testruns"].items, jobs.nodes[platformId.s])
  {
    var p := Announce(d.logFolder, props).value.0;
    var (jobs, platformId, q) := PrepareDispatch(d, p).value;
    assert q["tree"] == p["tree"] && q["allowed_testruns"] == p["allowed_testruns"];
    DispatchFollowsPlan(d, TransformOf(d), jobs, jobs.testruns, platformId, q);
  }
}
