/** The first-generation Pulse listener (pulse.py): every `build.*.*.finished`
    notification whose routing key matches the configured pattern and whose
    build passes the configured lists starts a functional test in Jenkins,
    preceded by an update test when the build names the build it updates
    from. The pattern matcher and Jenkins are parameters; the notification
    log written in debug mode is left out. */
module LegacyPulse {
  import opened Wrappers
  import opened Strings
  import opened Values
  import Queues

  /** `PLATFORM_MAP`: Pulse platform ids to Mozmill platforms. */
  const PlatformMap: map<string, string> := map[
    "linux" := "linux", "linux-debug" := "linux",
    "linux64" := "linux64", "linux64-debug" := "linux64",
    "macosx" := "mac", "macosx-debug" := "mac",
    "macosx64" := "mac", "macosx64-debug" := "mac",
    "win32" := "win32", "win32-debug" := "win32",
    "win64" := "win64", "win64-debug" := "win64"]

  /** The base platforms; every other key is one of them with `-debug`. */
  const BasePlatforms: seq<string> := ["linux", "linux64", "macosx", "macosx64", "win32", "win64"]

  /** The `-debug` names of the base platforms. */
  lemma DebugNames()
    ensures BasePlatforms[0] + "-debug" == "linux-debug" && BasePlatforms[1] + "-debug" == "linux64-debug"
    ensures BasePlatforms[2] + "-debug" == "macosx-debug" && BasePlatforms[3] + "-debug" == "macosx64-debug"
    ensures BasePlatforms[4] + "-debug" == "win32-debug" && BasePlatforms[5] + "-debug" == "win64-debug"
  {
  }

  /** A debug build runs the tests of its base platform, and both Mac widths
      run as `mac`. */
  lemma PlatformMapVariants()
    ensures forall k :: 0 <= k < |BasePlatforms| ==>
              BasePlatforms[k] in PlatformMap && BasePlatforms[k] + "-debug" in PlatformMap
              && PlatformMap[BasePlatforms[k] + "-debug"] == PlatformMap[BasePlatforms[k]]
    ensures PlatformMap["macosx"] == PlatformMap["macosx64"] == "mac"
  {
    DebugNames();
  }

  /** The map knows the base platforms and their debug variants, nothing else. */
  lemma PlatformMapKeys()
    ensures PlatformMap.Keys == (set k | 0 <= k < |BasePlatforms| :: BasePlatforms[k])
                                + (set k | 0 <= k < |BasePlatforms| :: BasePlatforms[k] + "-debug")
  {
    DebugNames();
  }

  /** `PLATFORM_MAP[platform]`. */
  function MapPlatform(platform: Value): (r: Result<string>)
    ensures r.Success? <==> platform.Str? && platform.s in PlatformMap
    ensures r.Success? ==> r.value == PlatformMap[platform.s]
  {
    if platform.Str? && platform.s in PlatformMap then Success(PlatformMap[platform.s])
    else if !Hashable(platform) then Failure(TypeError("unhashable"))
    else Failure(KeyError(ToStr(platform)))
  }

  /** Unpacking `(k, v, source)`: whatever iterates to exactly three
      elements unpacks to the first two of them; anything else raises. */
  function Unpack(t: Value): (r: Result<(Value, Value)>)
    ensures t.List? && |t.items| == 3 ==> r == Success((t.items[0], t.items[1]))
    ensures t.Str? && |t.s| == 3 ==> r == Success((Str([t.s[0]]), Str([t.s[1]])))
    ensures t.Obj? ==> (r.Success? <==> |t.fields| == 3)
    ensures t.Obj? && r.Success? ==> r.value.0 != r.value.1
    ensures t.Obj? && r.Success? ==> r.value.0.Str? && r.value.0.s in t.fields && r.value.1.Str? && r.value.1.s in t.fields
    ensures r.Success? ==> (t.List? && |t.items| == 3) || (t.Str? && |t.s| == 3) || (t.Obj? && |t.fields| == 3)
  {
    var xs :- Elements(t);
    if |xs| == 3 then Success((xs[0], xs[1])) else Failure(ValueError("unpack"))
  }

  /** The property name a triple sets, when it is a string. */
  function TripleName(t: Value): (n: Option<string>)
    ensures n.Some? ==> Unpack(t).Success? && Unpack(t).value.0 == Str(n.value)
  {
    match Unpack(t)
    case Success((k, _)) => if k.Str? then Some(k.s) else None
    case Failure(_) => None
  }

  /** One triple added to the properties: names that are not strings are
      never looked up and are left out. */
  function AddTriple(before: Props, t: Value): (r: Result<Props>)
    ensures r.Success? <==> Unpack(t).Success? && Hashable(Unpack(t).value.0)
    ensures r.Success? && TripleName(t).Some? ==> r.value == before[TripleName(t).value := Unpack(t).value.1]
    ensures r.Success? && TripleName(t).None? ==> r.value == before
  {
    var kv :- Unpack(t);
    if !Hashable(kv.0) then Failure(TypeError("unhashable"))
    else Success(if kv.0.Str? then before[kv.0.s := kv.1] else before)
  }

  /** `dict((k, v) for (k, v, source) in triples)`: the first triple that
      does not unpack, or whose name cannot be hashed, raises. */
  function PropertiesOf(ts: seq<Value>): (r: Result<Props>)
    ensures r.Success? <==> forall i :: 0 <= i < |ts| ==> Unpack(ts[i]).Success? && Hashable(Unpack(ts[i]).value.0)
    ensures r.Success? ==> forall name :: name in r.value <==> exists i :: 0 <= i < |ts| && TripleName(ts[i]) == Some(name)
    decreases |ts|
  {
    if |ts| == 0 then Success(map[])
    else
      var before :- PropertiesOf(ts[..|ts| - 1]);
      assert forall i :: 0 <= i < |ts| - 1 ==> ts[..|ts| - 1][i] == ts[i];
      AddTriple(before, ts[|ts| - 1])
  }

  /** A later triple overrides an earlier one: the value of a property is the
      one of the last triple that names it. */
  lemma {:induction false} PropertiesLastWins(ts: seq<Value>, i: nat)
    requires PropertiesOf(ts).Success? && i < |ts| && TripleName(ts[i]).Some?
    requires forall j :: i < j < |ts| ==> TripleName(ts[j]) != TripleName(ts[i])
    ensures PropertiesOf(ts).value[TripleName(ts[i]).value] == Unpack(ts[i]).value.1
    decreases |ts|
  {
    var init := ts[..|ts| - 1];
    if i < |ts| - 1 {
      assert init[i] == ts[i];
      assert forall j :: i < j < |init| ==> init[j] == ts[j];
      PropertiesLastWins(init, i);
    }
  }

  /** `dict((k, v) for (k, v, source) in properties)` for whatever the
      build's `properties` holds: a list of triples, but equally a string
      (its characters) or a dictionary (its keys). */
  function PropertiesFrom(properties: Value): (r: Result<Props>)
    ensures properties.List? ==> r == PropertiesOf(properties.items)
    ensures properties == Obj(map[]) ==> r == Success(map[])
    ensures properties.Obj? ==> (r.Success? <==> forall k :: k in properties.fields ==> |k| == 3)
    ensures !(properties.List? || properties.Str? || properties.Obj?) ==> r.Failure? && r.error.TypeError?
  {
    var ts :- Elements(properties);
    if properties.Obj? then DictKeysUnpack(properties.fields); PropertiesOf(ts)
    else PropertiesOf(ts)
  }

  /** A sequence of strings builds properties exactly when every one of them
      is three characters long. */
  lemma StringTriples(ts: seq<Value>)
    requires forall i :: 0 <= i < |ts| ==> ts[i].Str?
    ensures PropertiesOf(ts).Success? <==> forall i :: 0 <= i < |ts| ==> |ts[i].s| == 3
  {
    forall i | 0 <= i < |ts|
      ensures Unpack(ts[i]).Success? && Hashable(Unpack(ts[i]).value.0) <==> |ts[i].s| == 3
    {
      var s := ts[i].s;
      assert ts[i] == Str(s);
    }
  }

  /** Iterating a dictionary yields its keys, and a key unpacks into three
      names only when it is three characters long. */
  lemma DictKeysUnpack(m: map<string, Value>)
    ensures PropertiesOf(Elements(Obj(m)).value).Success? <==> forall k :: k in m ==> |k| == 3
  {
    var ts := Elements(Obj(m)).value;
    StringTriples(ts);
    if forall k :: k in m ==> |k| == 3 {
      assert forall i :: 0 <= i < |ts| ==> ts[i].s in m;
    } else {
      var k :| k in m && |k| != 3;
      var i :| 0 <= i < |ts| && ts[i] == Str(k);
    }
  }

  /** A three-character string names the property of its first character. */
  lemma StringTripleName(s: string)
    requires |s| == 3
    ensures TripleName(Str(s)) == Some([s[0]])
  {
  }

  /** The names a sequence of three-character strings defines. */
  lemma StringTripleNames(ts: seq<Value>, name: string)
    requires forall i :: 0 <= i < |ts| ==> ts[i].Str? && |ts[i].s| == 3
    requires PropertiesOf(ts).Success?
    ensures name in PropertiesOf(ts).value <==> exists i :: 0 <= i < |ts| && [ts[i].s[0]] == name
  {
    if name in PropertiesOf(ts).value {
      var i :| 0 <= i < |ts| && TripleName(ts[i]) == Some(name);
      assert ts[i] == Str(ts[i].s);
      StringTripleName(ts[i].s);
    }
    if exists i :: 0 <= i < |ts| && [ts[i].s[0]] == name {
      var i :| 0 <= i < |ts| && [ts[i].s[0]] == name;
      assert ts[i] == Str(ts[i].s);
      StringTripleName(ts[i].s);
    }
  }

  /** The names a sequence of three-character strings defines, as a set. */
  lemma StringTripleNameSet(ts: seq<Value>)
    requires forall i :: 0 <= i < |ts| ==> ts[i].Str? && |ts[i].s| == 3
    requires PropertiesOf(ts).Success?
    ensures PropertiesOf(ts).value.Keys == set i | 0 <= i < |ts| :: [ts[i].s[0]]
  {
    forall name
      ensures name in PropertiesOf(ts).value <==> name in set i | 0 <= i < |ts| :: [ts[i].s[0]]
    {
      StringTripleNames(ts, name);
    }
  }

  /** The names a dictionary of properties defines: the first character of
      each of its keys, when all of them are three characters long. */
  lemma DictPropertyNames(m: map<string, Value>)
    requires PropertiesFrom(Obj(m)).Success?
    ensures PropertiesFrom(Obj(m)).value.Keys == set k | k in m :: [k[0]]
  {
    var ts := Elements(Obj(m)).value;
    assert PropertiesFrom(Obj(m)) == PropertiesOf(ts);
    DictKeysUnpack(m);
    StringTripleNameSet(ts);
    KeyInitials(ts, m);
  }

  /** Strings that stand for exactly the keys of a dictionary have the same
      initials as its keys. */
  lemma KeyInitials(ts: seq<Value>, m: map<string, Value>)
    requires forall k :: k in m ==> |k| == 3
    requires forall i :: 0 <= i < |ts| ==> ts[i].Str? && ts[i].s in m
    requires forall k :: k in m ==> Str(k) in ts
    ensures (set i | 0 <= i < |ts| :: [ts[i].s[0]]) == set k | k in m :: [k[0]]
  {
    forall k | k in m
      ensures [k[0]] in set i | 0 <= i < |ts| :: [ts[i].s[0]]
    {
      var i :| 0 <= i < |ts| && ts[i] == Str(k);
    }
  }

  /** `data['payload']['build'].get('properties')` turned into the
      properties, or none when the notification carries no build. */
  function BuildProperties(data: Value): (r: Result<Props>)
    ensures r.Success? && data.Obj? && !Truthy(Get(data.fields, "payload", Null)) ==> r.value == map[]
    ensures data.Obj? && Get(data.fields, "payload", Null).Obj? && Truthy(Get(data.fields, "payload", Null))
            && Get(Get(data.fields, "payload", Null).fields, "build", Null).Obj?
            && Truthy(Get(Get(data.fields, "payload", Null).fields, "build", Null))
            ==> r == PropertiesFrom(Get(Get(Get(data.fields, "payload", Null).fields, "build", Null).fields, "properties", Null))
  {
    var payload :- GetField(data, "payload", Null);
    if !Truthy(payload) then Success(map[])
    else
      var build :- GetField(payload, "build", Null);
      if !Truthy(build) then Success(map[])
      else
        var properties :- GetField(build, "properties", Null);
        PropertiesFrom(properties)
  }

  /** `props.get('locale', 'en-US')`. */
  function Locale(props: Props): (locale: Value)
    ensures "locale" !in props ==> locale == Str("en-US")
    ensures "locale" in props ==> locale == props["locale"]
  {
    Get(props, "locale", Str("en-US"))
  }

  /** The `pulse` and `mozmill` parts of the configuration. */
  datatype LegacyConfig = LegacyConfig(branches: Value, locales: Value, platforms: Value, products: Value,
                                       reportUrl: Value)

  /** `not allowed or value in allowed`. */
  function Allowed(allowed: Value, v: Value): (r: Result<bool>)
    ensures !Truthy(allowed) ==> r == Success(true)
    ensures allowed.List? && Truthy(allowed) ==> r == Success(exists k :: 0 <= k < |allowed.items| && PyEq(allowed.items[k], v))
  {
    if !Truthy(allowed) then Success(true) else PyIn(v, allowed)
  }

  /** The four lists, evaluated in the order branch, locale, platform,
      product; the build passes when all four allow it. */
  function Admit(cfg: LegacyConfig, props: Props): (r: Result<bool>)
    ensures r.Success? <==>
              Allowed(cfg.branches, Get(props, "branch", Null)).Success?
              && Allowed(cfg.locales, Locale(props)).Success?
              && Allowed(cfg.platforms, Get(props, "platform", Null)).Success?
              && Allowed(cfg.products, Get(props, "product", Null)).Success?
    ensures r.Success? ==> (r.value <==>
              Allowed(cfg.branches, Get(props, "branch", Null)).value
              && Allowed(cfg.locales, Locale(props)).value
              && Allowed(cfg.platforms, Get(props, "platform", Null)).value
              && Allowed(cfg.products, Get(props, "product", Null)).value)
  {
    var branch :- Allowed(cfg.branches, Get(props, "branch", Null));
    var locale :- Allowed(cfg.locales, Locale(props));
    var platform :- Allowed(cfg.platforms, Get(props, "platform", Null));
    var product :- Allowed(cfg.products, Get(props, "product", Null));
    Success(product && branch && platform && locale)
  }

  /** Without any configured list every build passes. */
  lemma EmptyListsAdmitAll(props: Props)
    ensures Admit(LegacyConfig(List([]), List([]), List([]), Null, Null), props) == Success(true)
  {
  }

  /** `rstrip('/')`. */
  function TrimSlashes(s: string): (r: string)
    ensures |r| <= |s| && r == s[..|r|]
    ensures |r| == 0 || r[|r| - 1] != '/'
    ensures forall k :: |r| <= k < |s| ==> s[k] == '/'
    decreases |s|
  {
    if |s| > 0 && s[|s| - 1] == '/' then TrimSlashes(s[..|s| - 1]) else s
  }

  /** `os.path.dirname` on a POSIX path. */
  function DirName(p: string): (d: string)
    ensures |d| <= |p| && d == p[..|d|]
  {
    var head := p[..RFind(p, '/') + 1];
    if head != "" && TrimSlashes(head) != "" then TrimSlashes(head) else head
  }

  /** The installer URL: the package URL, or the installer's name next to
      it. It is only computed, but computing it raises when the package URL
      is missing or the installer's name is not a string. */
  function InstallerUrl(props: Props): (r: Result<Value>)
    ensures "installerFilename" !in props ==> r == Success(Get(props, "packageUrl", Null))
    ensures "installerFilename" in props ==>
              (r.Success? <==> Get(props, "packageUrl", Null).Str? && props["installerFilename"].Str?)
  {
    var url := Get(props, "packageUrl", Null);
    if "installerFilename" !in props then Success(url)
    else if !url.Str? then Failure(AttributeError("rfind"))
    else if !props["installerFilename"].Str? then Failure(TypeError("sequence item 1: expected string"))
    else Success(Str(Join([DirName(url.s), props["installerFilename"].s], "/")))
  }

  datatype JobKind = UpdateTest | FunctionalTest

  /** A `build_job` call; the update test's target is the notified build. */
  datatype LegacyJob = LegacyJob(kind: JobKind, branch: Value, platform: string, locale: Value,
                                 buildId: Value, targetBuildId: Option<Value>, reportUrl: Value)

  function JobName(kind: JobKind): string {
    match kind
    case UpdateTest => "update-test"
    case FunctionalTest => "functional-test"
  }

  /** The jobs of an admitted build, in order. */
  function PlannedJobs(cfg: LegacyConfig, props: Props, platform: string): (jobs: seq<LegacyJob>)
    ensures 1 <= |jobs| <= 2
    ensures jobs[|jobs| - 1].kind == FunctionalTest
    ensures jobs[|jobs| - 1].buildId == Get(props, "buildid", Null)
    ensures |jobs| == 2 <==> Truthy(Get(props, "previous_buildid", Null))
    ensures |jobs| == 2 ==>
              (jobs[0].kind == UpdateTest
               && jobs[0].buildId == props["previous_buildid"]
               && jobs[0].targetBuildId == Some(Get(props, "buildid", Null)))
    ensures forall k :: 0 <= k < |jobs| ==>
              jobs[k].platform == platform && jobs[k].locale == Locale(props)
              && jobs[k].branch == Get(props, "branch", Null) && jobs[k].reportUrl == cfg.reportUrl
  {
    var branch := Get(props, "branch", Null);
    var buildId := Get(props, "buildid", Null);
    var previous := Get(props, "previous_buildid", Null);
    var functional := LegacyJob(FunctionalTest, branch, platform, Locale(props), buildId, None, cfg.reportUrl);
    if Truthy(previous) then
      [LegacyJob(UpdateTest, branch, platform, Locale(props), previous, Some(buildId), cfg.reportUrl), functional]
    else [functional]
  }

  /** Jenkins' `build_job`. */
  type BuildJob = LegacyJob -> Check

  /** The jobs that were started, and what stopped the handler, if anything. */
  datatype Triggered = Triggered(jobs: seq<LegacyJob>, error: Option<Error>)

  /** The jobs in order until Jenkins raises. */
  function TriggerJobs(jobs: seq<LegacyJob>, buildJob: BuildJob): (t: Triggered)
    ensures |t.jobs| <= |jobs| && t.jobs == jobs[..|t.jobs|]
    ensures t.error.None? <==> t.jobs == jobs
    ensures t.error.None? <==> forall k :: 0 <= k < |jobs| ==> buildJob(jobs[k]).Pass?
    decreases |jobs|
  {
    if |jobs| == 0 then Triggered([], None)
    else
      match buildJob(jobs[0])
      case Raise(e) => Triggered([], Some(e))
      case Pass =>
        var rest := TriggerJobs(jobs[1..], buildJob);
        assert forall k :: 1 <= k < |jobs| ==> jobs[k] == jobs[1..][k - 1];
        Triggered([jobs[0]] + rest.jobs, rest.error)
  }

  /** `pattern.match(routing_key)` with the configured pattern, case-insensitive. */
  type RoutingPattern = string -> bool

  /** The routing key of a notification; matching needs a string. */
  function RoutingKey(data: Value): (r: Result<string>)
    ensures r.Success? <==> data.Obj? && "_meta" in data.fields && data.fields["_meta"].Obj?
                            && "routing_key" in data.fields["_meta"].fields
                            && data.fields["_meta"].fields["routing_key"].Str?
  {
    var meta :- Field(data, "_meta");
    var key :- Field(meta, "routing_key");
    if key.Str? then Success(key.s) else Failure(TypeError("expected string or buffer"))
  }

  /** A notification after the acknowledgement: the routing key, the
      properties, the lists, the installer URL and the platform, then the
      jobs. */
  function Process(cfg: LegacyConfig, matches: RoutingPattern, data: Value, buildJob: BuildJob): (t: Triggered)
    ensures RoutingKey(data).Success? && !matches(RoutingKey(data).value) ==> t == Triggered([], None)
    ensures t.jobs != [] ==>
              && RoutingKey(data).Success? && matches(RoutingKey(data).value)
              && BuildProperties(data).Success?
              && Admit(cfg, BuildProperties(data).value) == Success(true)
              && InstallerUrl(BuildProperties(data).value).Success?
              && MapPlatform(Get(BuildProperties(data).value, "platform", Null)).Success?
  {
    match RoutingKey(data)
    case Failure(e) => Triggered([], Some(e))
    case Success(key) =>
      if !matches(key) then Triggered([], None)
      else
        match BuildProperties(data)
        case Failure(e) => Triggered([], Some(e))
        case Success(props) =>
          match Admit(cfg, props)
          case Failure(e) => Triggered([], Some(e))
          case Success(admitted) =>
            if !admitted then Triggered([], None)
            else
              match InstallerUrl(props)
              case Failure(e) => Triggered([], Some(e))
              case Success(_) =>
                match MapPlatform(Get(props, "platform", Null))
                case Failure(e) => Triggered([], Some(e))
                case Success(platform) => TriggerJobs(PlannedJobs(cfg, props, platform), buildJob)
  }

  /** What Jenkins is asked for an admitted build: a functional test, preceded
      by an update test to it when the build names the build it updates from. */
  lemma AdmittedBuildFanOut(cfg: LegacyConfig, matches: RoutingPattern, data: Value, buildJob: BuildJob)
    requires RoutingKey(data).Success? && matches(RoutingKey(data).value)
    requires BuildProperties(data).Success?
    requires Admit(cfg, BuildProperties(data).value) == Success(true)
    requires InstallerUrl(BuildProperties(data).value).Success?
    requires MapPlatform(Get(BuildProperties(data).value, "platform", Null)).Success?
    requires forall job :: buildJob(job).Pass?
    ensures var props := BuildProperties(data).value;
      var platform := PlatformMap[Get(props, "platform", Null).s];
      Process(cfg, matches, data, buildJob) == Triggered(PlannedJobs(cfg, props, platform), None)
  {
  }

  /** The listener's message as the Pulse consumer hands it over; `None`
      for a notification replayed from a file. */
  type Delivery = Option<Queues.Message>

  /** What handling a notification did. */
  datatype Handled = Handled(acked: bool, triggered: Triggered)

  /** `handle_notification` as written: the message is acknowledged first,
      also when there is none, which raises before anything else. */
  function HandleNotificationAsWritten(cfg: LegacyConfig, matches: RoutingPattern, data: Value,
                                       message: Delivery, buildJob: BuildJob): (h: Handled)
    ensures message.Some? ==> h == Handled(true, Process(cfg, matches, data, buildJob))
  {
    if message.None? then Handled(false, Triggered([], Some(AttributeError("'NoneType' object has no attribute 'ack'"))))
    else Handled(true, Process(cfg, matches, data, buildJob))
  }

  /** A notification replayed with `--push-message` starts nothing. */
  lemma ReplayedNotificationIsLost(cfg: LegacyConfig, matches: RoutingPattern, data: Value, buildJob: BuildJob)
    ensures HandleNotificationAsWritten(cfg, matches, data, None, buildJob).triggered.jobs == []
    ensures HandleNotificationAsWritten(cfg, matches, data, None, buildJob).triggered.error.Some?
  {
  }

  /** `handle_notification` acknowledging only a message there is: a
      received message is acknowledged, and a replayed notification is
      handled like a received one. */
  function HandleNotification(cfg: LegacyConfig, matches: RoutingPattern, data: Value,
                              message: Delivery, buildJob: BuildJob): (h: Handled)
    ensures h.acked <==> message.Some?
    ensures h.triggered == Process(cfg, matches, data, buildJob)
  {
    Handled(message.Some?, Process(cfg, matches, data, buildJob))
  }

  /** The correction changes nothing for messages the consumer delivers. */
  lemma CorrectionKeepsDeliveredMessages(cfg: LegacyConfig, matches: RoutingPattern, data: Value,
                                         message: Queues.Message, buildJob: BuildJob)
    ensures HandleNotification(cfg, matches, data, Some(message), buildJob)
            == HandleNotificationAsWritten(cfg, matches, data, Some(message), buildJob)
    ensures HandleNotification(cfg, matches, data, None, buildJob).triggered
            == HandleNotification(cfg, matches, data, Some(message), buildJob).triggered
  {
  }
}
