/** The on-demand trigger (jenkins-master/jobs/trigger-ondemand/workspace/trigger.py):
    a configuration file lists, per group of nodes, the platform and the
    builds to test with their locales; one Jenkins build of
    `ondemand_<script>` is started per build and locale. The configuration
    comes parsed (ConfigParser's sections and options, in order); Jenkins'
    `build_job` is a parameter, and the result lists the jobs it started. */
module OnDemand {
  import opened Wrappers
  import opened Strings

  /** `ENVIRONMENT_PLATFORM_MAP[platform]`. */
  function EnvironmentPlatform(platform: string): (r: Result<string>)
    ensures r.Success? <==> platform in {"linux", "linux64", "mac", "win32", "win64"}
    ensures r.Failure? ==> r.error == KeyError(platform)
    ensures r.Success? ==> r.value in {"linux", "mac", "windows"}
  {
    if platform == "linux" || platform == "linux64" then Success("linux")
    else if platform == "mac" then Success("mac")
    else if platform == "win32" || platform == "win64" then Success("windows")
    else Failure(KeyError(platform))
  }

  /** Both widths of a platform share the environment of its family. */
  lemma EnvironmentFamilies()
    ensures EnvironmentPlatform("linux") == EnvironmentPlatform("linux64") == Success("linux")
    ensures EnvironmentPlatform("win32") == EnvironmentPlatform("win64") == Success("windows")
    ensures EnvironmentPlatform("mac") == Success("mac")
  {
  }

  /** `[\d\.]` of the entry pattern. */
  predicate IsVersionChar(c: char) {
    IsDigit(c) || c == '.'
  }

  /** `\w` without the `UNICODE` flag. */
  predicate IsWordChar(c: char) {
    'a' <= c <= 'z' || 'A' <= c <= 'Z' || IsDigit(c) || c == '_'
  }

  /** Where a greedy run of characters satisfying `p` that starts at `i` ends. */
  function RunEnd(s: string, i: nat, p: char -> bool): (j: nat)
    requires i <= |s|
    ensures i <= j <= |s|
    ensures forall k :: i <= k < j ==> p(s[k])
    ensures j == |s| || !p(s[j])
    decreases |s| - i
  {
    if i < |s| && p(s[i]) then RunEnd(s, i + 1, p) else i
  }

  /** A run is determined by where it starts. */
  lemma RunEndUnique(s: string, i: nat, p: char -> bool, j: nat)
    requires i <= j <= |s|
    requires forall k :: i <= k < j ==> p(s[k])
    requires j == |s| || !p(s[j])
    ensures RunEnd(s, i, p) == j
  {
  }

  /** A build of a section: a version, and a build number for a candidate. */
  datatype Entry = Entry(version: string, build: Option<string>)

  /** The `#<build>` part of an entry. */
  function BuildSuffix(build: Option<string>): string {
    match build
    case Some(b) => "#" + b
    case None => ""
  }

  /** Where the version of an entry ends: the longest run of digits and
      dots, then a word character with digits if digits follow it. */
  function VersionEnd(entry: string): (m: nat)
    ensures m <= |entry|
    ensures m > 0 <==> |entry| > 0 && IsVersionChar(entry[0])
  {
    var n := RunEnd(entry, 0, IsVersionChar);
    if n == 0 then 0
    else if n + 1 < |entry| && IsWordChar(entry[n]) && IsDigit(entry[n + 1]) then RunEnd(entry, n + 1, IsDigit) else n
  }

  /** The build after the version ending at `m`: `#` and the longest run of
      digits, when digits follow it. */
  function BuildAt(entry: string, m: nat): (b: Option<string>)
    requires m <= |entry|
    ensures b.Some? ==> |b.value| > 0 && AllDigits(b.value)
    ensures StartsWith(entry[m..], BuildSuffix(b))
  {
    if m + 1 < |entry| && entry[m] == '#' && IsDigit(entry[m + 1]) then
      var b := entry[m + 1..RunEnd(entry, m + 1, IsDigit)];
      assert entry[m..][..|b| + 1] == "#" + b;
      Some(b)
    else None
  }

  /** `re.match(r'(?P<version>[\d\.]+(?:\w\d+)?)(?:#(?P<build>\d+))?', entry)`:
      the pattern matches a prefix of the entry, or nothing when the entry
      does not start with a digit or a dot. */
  function ParseEntry(entry: string): (r: Option<Entry>)
    ensures r.None? <==> |entry| == 0 || !IsVersionChar(entry[0])
    ensures r.Some? ==> StartsWith(entry, r.value.version + BuildSuffix(r.value.build))
    ensures r.Some? ==> |r.value.version| > 0
    ensures r.Some? && r.value.build.Some? ==> |r.value.build.value| > 0 && AllDigits(r.value.build.value)
  {
    var m := VersionEnd(entry);
    if m == 0 then None
    else
      var build := BuildAt(entry, m);
      StartsWithJoin(entry, m, BuildSuffix(build));
      Some(Entry(entry[..m], build))
  }

  /** A version as the configuration writes it: digits and dots, then
      optionally a letter and digits (`5.0`, `5.0b2`). */
  datatype VersionText = VersionText(release: string, tag: Option<(char, string)>)

  predicate WellFormed(v: VersionText) {
    && |v.release| > 0 && (forall k :: 0 <= k < |v.release| ==> IsVersionChar(v.release[k]))
    && (v.tag.Some? ==> IsWordChar(v.tag.value.0) && !IsVersionChar(v.tag.value.0)
                        && |v.tag.value.1| > 0 && AllDigits(v.tag.value.1))
  }

  function TagText(tag: Option<(char, string)>): string {
    match tag
    case Some((c, digits)) => [c] + digits
    case None => ""
  }

  function VersionString(v: VersionText): string {
    v.release + TagText(v.tag)
  }

  /** A run over `x` that `y` does not continue ends after `x`. */
  lemma RunEndAfter(pre: string, x: string, y: string, p: char -> bool)
    requires forall k :: 0 <= k < |x| ==> p(x[k])
    requires |y| == 0 || !p(y[0])
    ensures RunEnd(pre + x + y, |pre|, p) == |pre| + |x|
  {
    var s := pre + x + y;
    assert forall k :: |pre| <= k < |pre| + |x| ==> s[k] == x[k - |pre|];
    if |y| > 0 {
      assert s[|pre| + |x|] == y[0];
    }
    RunEndUnique(s, |pre|, p, |pre| + |x|);
  }

  /** The digits and dots of a version end where the tag starts. */
  lemma ReleaseRun(v: VersionText, rest: string)
    requires WellFormed(v)
    requires v.tag.None? ==> |rest| == 0 || !IsVersionChar(rest[0])
    ensures RunEnd(VersionString(v) + rest, 0, IsVersionChar) == |v.release|
  {
    var tail := TagText(v.tag) + rest;
    assert VersionString(v) + rest == "" + v.release + tail;
    if |tail| > 0 {
      assert tail[0] == if v.tag.Some? then v.tag.value.0 else rest[0];
    }
    RunEndAfter("", v.release, tail, IsVersionChar);
  }

  /** The digits of a tag or a build end where the next part starts. */
  lemma DigitsRun(prefix: string, digits: string, rest: string)
    requires AllDigits(digits)
    requires |rest| == 0 || rest[0] == '#'
    ensures RunEnd(prefix + digits + rest, |prefix|, IsDigit) == |prefix| + |digits|
  {
    RunEndAfter(prefix, digits, rest, IsDigit);
  }

  /** The version of a rendered entry ends where the version text ends. */
  lemma VersionEndOf(v: VersionText, suffix: string)
    requires WellFormed(v)
    requires |suffix| == 0 || suffix[0] == '#'
    ensures VersionEnd(VersionString(v) + suffix) == |VersionString(v)|
  {
    var entry := VersionString(v) + suffix;
    ReleaseRun(v, suffix);
    var n := |v.release|;
    match v.tag {
      case Some((c, digits)) =>
        assert entry[n] == c && entry[n + 1] == digits[0];
        assert entry == (v.release + [c]) + digits + suffix;
        DigitsRun(v.release + [c], digits, suffix);
      case None =>
    }
  }

  /** The build of a rendered entry is the one rendered. */
  lemma BuildAtOf(prefix: string, build: Option<string>)
    requires build.Some? ==> |build.value| > 0 && AllDigits(build.value)
    ensures BuildAt(prefix + BuildSuffix(build), |prefix|) == build
  {
    var entry := prefix + BuildSuffix(build);
    var m := |prefix|;
    match build {
      case Some(b) =>
        assert entry[m] == '#' && entry[m + 1] == b[0];
        assert entry == (prefix + "#") + b + "";
        DigitsRun(prefix + "#", b, "");
        assert RunEnd(entry, m + 1, IsDigit) == |entry|;
        assert entry[m + 1..|entry|] == b;
      case None =>
    }
  }

  /** Every entry the configuration can write parses back to its version and
      build: `5.0` is a release, `5.0b2#1` is build 1 of the candidate `5.0b2`. */
  lemma EntryRoundTrip(v: VersionText, build: Option<string>)
    requires WellFormed(v)
    requires build.Some? ==> |build.value| > 0 && AllDigits(build.value)
    ensures ParseEntry(VersionString(v) + BuildSuffix(build)) == Some(Entry(VersionString(v), build))
  {
    var suffix := BuildSuffix(build);
    var entry := VersionString(v) + suffix;
    VersionEndOf(v, suffix);
    BuildAtOf(VersionString(v), build);
    assert entry[..|VersionString(v)|] == VersionString(v);
  }

  /** An entry that starts with anything but a digit or a dot, such as the
      `platform` option itself, names no build. */
  lemma PlatformOptionIsNoEntry()
    ensures ParseEntry("platform").None?
  {
  }

  /** A section of the configuration: its name lists the node labels. */
  datatype Section = Section(name: string, options: seq<(string, string)>)

  /** `config.get(section, key)` for a present key. */
  function OptionValue(options: seq<(string, string)>, key: string): (r: Option<string>)
    ensures r.Some? <==> exists k :: 0 <= k < |options| && options[k].0 == key
    ensures r.Some? ==> exists k :: 0 <= k < |options| && options[k] == (key, r.value)
    decreases |options|
  {
    if |options| == 0 then None
    else if options[0].0 == key then Some(options[0].1)
    else
      var rest := OptionValue(options[1..], key);
      assert forall k :: 1 <= k < |options| ==> options[k] == options[1..][k - 1];
      rest
  }

  /** The parsed configuration: the `testrun` options and the sections. */
  datatype Config = Config(testrun: Option<map<string, string>>, sections: seq<Section>)

  const DefaultReportUrl := "http://mozmill-ondemand.blargon7.com/db/"

  /** The `report` option when it is set and not empty. */
  function ReportUrl(testrun: map<string, string>): (url: string)
    ensures "report" in testrun && testrun["report"] != "" ==> url == testrun["report"]
    ensures !("report" in testrun && testrun["report"] != "") ==> url == DefaultReportUrl
  {
    if "report" in testrun && testrun["report"] != "" then testrun["report"] else DefaultReportUrl
  }

  /** The parameters of one build. */
  datatype Parameters = Parameters(
    buildType: string, version: string, buildNumber: string, envPlatform: string, locale: string,
    nodes: string, platform: string, reportUrl: string, extras: map<string, string>)

  /** The options a script takes from `testrun`. */
  function Extras(testrun: map<string, string>, script: string): (e: map<string, string>)
    ensures "TARGET_BUILD_ID" in e <==> script == "update" && "target-build-id" in testrun
    ensures "TARGET_BUILD_ID" in e ==> e["TARGET_BUILD_ID"] == testrun["target-build-id"]
    ensures "DELAY" in e <==> script == "endurance" && "delay" in testrun
    ensures "DELAY" in e ==> e["DELAY"] == testrun["delay"]
    ensures "ENTITIES" in e <==> script == "endurance" && "entities" in testrun
    ensures "ENTITIES" in e ==> e["ENTITIES"] == testrun["entities"]
    ensures "ITERATIONS" in e <==> script == "endurance" && "iterations" in testrun
    ensures "ITERATIONS" in e ==> e["ITERATIONS"] == testrun["iterations"]
    ensures e.Keys <= {"TARGET_BUILD_ID", "DELAY", "ENTITIES", "ITERATIONS"}
  {
    if script == "update" && "target-build-id" in testrun then map["TARGET_BUILD_ID" := testrun["target-build-id"]]
    else if script == "endurance" then
      var delay := if "delay" in testrun then map["DELAY" := testrun["delay"]] else map[];
      var entities := if "entities" in testrun then map["ENTITIES" := testrun["entities"]] else map[];
      var iterations := if "iterations" in testrun then map["ITERATIONS" := testrun["iterations"]] else map[];
      delay + entities + iterations
    else map[]
  }

  /** A `build_job` call. */
  datatype Job = Job(name: string, parameters: Parameters)

  /** What the run started, and the exception that stopped it, if any. */
  datatype Outcome = Outcome(jobs: seq<Job>, error: Option<Error>)

  /** What every build of a run shares. */
  datatype Run = Run(testrun: map<string, string>, script: string, reportUrl: string)

  /** The job for one build and locale of a section. */
  function BuildJob(run: Run, platform: string, envPlatform: string, labels: seq<string>, e: Entry,
                    locale: string): (job: Job)
    ensures job.name == "ondemand_" + run.script
    ensures job.parameters.buildType == (if e.build.Some? then "candidate" else "release")
    ensures job.parameters.buildNumber == e.build.GetOr("1")
    ensures job.parameters.version == e.version && job.parameters.locale == locale
    ensures job.parameters.platform == platform && job.parameters.envPlatform == envPlatform
  {
    var buildType := if e.build.Some? then "candidate" else "release";
    Job("ondemand_" + run.script,
        Parameters(buildType, e.version, e.build.GetOr("1"), envPlatform, locale, Join(labels, " && "),
                   platform, run.reportUrl, Extras(run.testrun, run.script)))
  }

  /** Every job runs the run's script and reports to its report URL. */
  predicate OfRun(run: Run, jobs: seq<Job>) {
    forall k :: 0 <= k < |jobs| ==>
      jobs[k].name == "ondemand_" + run.script && jobs[k].parameters.reportUrl == run.reportUrl
  }

  /** `j.build_job(name, parameters)`: Jenkins starts the job or raises. */
  type Starter = Job -> Check

  /** Every job of the list was started without an exception. */
  predicate Started(buildJob: Starter, jobs: seq<Job>) {
    forall k :: 0 <= k < |jobs| ==> buildJob(jobs[k]).Pass?
  }

  /** The jobs of a build's locales, in order, once the environment
      platform is known. */
  function PlannedJobs(run: Run, platform: string, env: string, labels: seq<string>, e: Entry,
                       locales: seq<string>): (jobs: seq<Job>)
    ensures |jobs| == |locales|
    ensures forall k :: 0 <= k < |jobs| ==> jobs[k] == BuildJob(run, platform, env, labels, e, locales[k])
  {
    seq(|locales|, k requires 0 <= k < |locales| => BuildJob(run, platform, env, labels, e, locales[k]))
  }

  /** `build_job` for each job in order, until the first exception. */
  function StartAll(jobs: seq<Job>, buildJob: Starter): (o: Outcome)
    ensures |o.jobs| <= |jobs| && o.jobs == jobs[..|o.jobs|]
    ensures o.error.None? <==> Started(buildJob, jobs)
    ensures o.error.None? ==> o.jobs == jobs
    ensures o.error.Some? ==> |o.jobs| < |jobs| && buildJob(jobs[|o.jobs|]).Raise?
                              && o.error == Some(buildJob(jobs[|o.jobs|]).error)
    ensures Started(buildJob, o.jobs)
    decreases |jobs|
  {
    if |jobs| == 0 then Outcome([], None)
    else
      match buildJob(jobs[0])
      case Raise(err) => Outcome([], Some(err))
      case Pass =>
        var rest := StartAll(jobs[1..], buildJob);
        assert forall k :: 1 <= k < |jobs| ==> jobs[1..][k - 1] == jobs[k];
        Outcome([jobs[0]] + rest.jobs, rest.error)
  }

  /** Jenkins raises for the job of some locale, with the platform known. */
  predicate Raises(run: Run, platform: string, labels: seq<string>, e: Entry, locales: seq<string>,
                   buildJob: Starter)
  {
    && EnvironmentPlatform(platform).Success?
    && !Started(buildJob, PlannedJobs(run, platform, EnvironmentPlatform(platform).value, labels, e, locales))
  }

  /** The locales of one build, in order. Per locale the environment
      platform is looked up, whose `KeyError` ends the run, and then the job
      is started; an exception from Jenkins ends the run too, with the jobs
      started before it. The lookup gives the same answer for every locale,
      so it is made once, before the first. */
  function LocaleJobs(run: Run, platform: string, labels: seq<string>, e: Entry, locales: seq<string>,
                      buildJob: Starter): (o: Outcome)
    ensures |o.jobs| <= |locales|
    ensures o.error.Some? <==>
              (|locales| > 0 && EnvironmentPlatform(platform).Failure?) || Raises(run, platform, labels, e, locales, buildJob)
    ensures o.error.None? ==> |o.jobs| == |locales|
    ensures EnvironmentPlatform(platform).Failure? ==> o.jobs == []
    ensures EnvironmentPlatform(platform).Failure? && |locales| > 0 ==> o.error == Some(KeyError(platform))
    ensures OfRun(run, o.jobs) && Started(buildJob, o.jobs)
    ensures EnvironmentPlatform(platform).Success? ==> forall k :: 0 <= k < |o.jobs| ==>
              o.jobs[k] == BuildJob(run, platform, EnvironmentPlatform(platform).value, labels, e, locales[k])
    ensures EnvironmentPlatform(platform).Success? && o.error.Some? ==>
              && |o.jobs| < |locales|
              && var failed := buildJob(BuildJob(run, platform, EnvironmentPlatform(platform).value, labels, e,
                                                 locales[|o.jobs|]));
                 failed.Raise? && o.error == Some(failed.error)
  {
    if |locales| == 0 then Outcome([], None)
    else
      match EnvironmentPlatform(platform)
      case Failure(err) => Outcome([], Some(err))
      case Success(env) =>
        var planned := PlannedJobs(run, platform, env, labels, e, locales);
        var o := StartAll(planned, buildJob);
        assert forall k :: 0 <= k < |o.jobs| ==> o.jobs[k] == planned[k];
        o
  }

  /** `a` then `b`, unless `a` raised. */
  function Then(a: Outcome, b: Outcome): (o: Outcome)
    ensures a.error.Some? ==> o == a
    ensures a.error.None? ==> o.jobs == a.jobs + b.jobs && o.error == b.error
  {
    if a.error.Some? then a else Outcome(a.jobs + b.jobs, b.error)
  }

  /** The options of a section, in order: one that names no build is
      skipped; a build starts a job per locale of its value. */
  function EntryJobs(run: Run, platform: string, labels: seq<string>, options: seq<(string, string)>,
                     buildJob: Starter): (o: Outcome)
    ensures OfRun(run, o.jobs) && Started(buildJob, o.jobs)
    decreases |options|
  {
    if |options| == 0 then Outcome([], None)
    else
      var here :=
        match ParseEntry(options[0].0)
        case None => Outcome([], None)
        case Some(e) => LocaleJobs(run, platform, labels, e, Split(options[0].1, ' '), buildJob);
      Then(here, EntryJobs(run, platform, labels, options[1..], buildJob))
  }

  /** Whether some option of a section names a build. */
  predicate HasBuild(options: seq<(string, string)>) {
    exists k :: 0 <= k < |options| && ParseEntry(options[k].0).Some?
  }

  /** Jenkins raises for a job of the build an option names. */
  predicate RaisesIn(run: Run, platform: string, labels: seq<string>, option: (string, string), buildJob: Starter) {
    ParseEntry(option.0).Some? && Raises(run, platform, labels, ParseEntry(option.0).value, Split(option.1, ' '), buildJob)
  }

  /** Jenkins raises for a job of some build a section names. */
  predicate SomeRaises(run: Run, platform: string, labels: seq<string>, options: seq<(string, string)>,
                       buildJob: Starter)
  {
    exists k :: 0 <= k < |options| && RaisesIn(run, platform, labels, options[k], buildJob)
  }

  /** A section stops the run exactly when it names a build and either its
      platform is unknown or Jenkins raises for one of the jobs; an unknown
      platform stops it before any job. */
  lemma {:induction false} EntryJobsError(run: Run, platform: string, labels: seq<string>, options: seq<(string, string)>,
                                          buildJob: Starter)
    ensures EntryJobs(run, platform, labels, options, buildJob).error.Some? <==>
              (EnvironmentPlatform(platform).Failure? && HasBuild(options))
              || SomeRaises(run, platform, labels, options, buildJob)
    ensures EnvironmentPlatform(platform).Failure? && HasBuild(options) ==>
              EntryJobs(run, platform, labels, options, buildJob) == Outcome([], Some(KeyError(platform)))
    decreases |options|
  {
    if |options| > 0 {
      EntryJobsError(run, platform, labels, options[1..], buildJob);
      HasBuildCons(options);
      SomeRaisesCons(run, platform, labels, options, buildJob);
      match ParseEntry(options[0].0) {
        case None =>
        case Some(e) =>
          var locales := Split(options[0].1, ' ');
          assert |locales| > 0;
      }
    }
  }

  /** With every call to Jenkins passing, a section stops the run exactly
      when its platform is unknown and it names a build. */
  lemma EntryJobsErrorWhenJenkinsPasses(run: Run, platform: string, labels: seq<string>,
                                        options: seq<(string, string)>, buildJob: Starter)
    requires forall job :: buildJob(job).Pass?
    ensures EntryJobs(run, platform, labels, options, buildJob).error.Some? <==>
              EnvironmentPlatform(platform).Failure? && HasBuild(options)
  {
    EntryJobsError(run, platform, labels, options, buildJob);
  }

  /** An option names a build, or a later one does. */
  lemma HasBuildCons(options: seq<(string, string)>)
    requires |options| > 0
    ensures HasBuild(options) <==> ParseEntry(options[0].0).Some? || HasBuild(options[1..])
  {
    if HasBuild(options[1..]) {
      var k :| 0 <= k < |options[1..]| && ParseEntry(options[1..][k].0).Some?;
      assert options[k + 1] == options[1..][k];
    }
    if HasBuild(options) && ParseEntry(options[0].0).None? {
      var k :| 0 <= k < |options| && ParseEntry(options[k].0).Some?;
      assert options[1..][k - 1] == options[k];
    }
  }

  /** Jenkins raises for the first option's build, or for a later one's. */
  lemma SomeRaisesCons(run: Run, platform: string, labels: seq<string>, options: seq<(string, string)>,
                       buildJob: Starter)
    requires |options| > 0
    ensures SomeRaises(run, platform, labels, options, buildJob) <==>
              RaisesIn(run, platform, labels, options[0], buildJob) || SomeRaises(run, platform, labels, options[1..], buildJob)
  {
    if SomeRaises(run, platform, labels, options[1..], buildJob) {
      var k :| 0 <= k < |options[1..]| && RaisesIn(run, platform, labels, options[1..][k], buildJob);
      assert options[k + 1] == options[1..][k];
    }
    if SomeRaises(run, platform, labels, options, buildJob) && !RaisesIn(run, platform, labels, options[0], buildJob) {
      var k :| 0 <= k < |options| && RaisesIn(run, platform, labels, options[k], buildJob);
      assert options[1..][k - 1] == options[k];
    }
  }

  /** One section: skipped without a `platform` option; its node labels are
      its name split at spaces. */
  function SectionJobs(run: Run, section: Section, buildJob: Starter): (o: Outcome)
    ensures OfRun(run, o.jobs) && Started(buildJob, o.jobs)
  {
    match OptionValue(section.options, "platform")
    case None => Outcome([], None)
    case Some(platform) => EntryJobs(run, platform, Split(section.name, ' '), section.options, buildJob)
  }

  /** `each` over `xs` in order, up to and including the first error. */
  function ThenEach<T>(each: T -> Outcome, xs: seq<T>): (o: Outcome)
    decreases |xs|
  {
    if |xs| == 0 then Outcome([], None) else Then(each(xs[0]), ThenEach(each, xs[1..]))
  }

  /** Every job of the fold comes from one of its steps. */
  lemma {:induction false} ThenEachOfRun<T>(run: Run, buildJob: Starter, each: T -> Outcome, xs: seq<T>)
    requires forall k :: 0 <= k < |xs| ==> OfRun(run, each(xs[k]).jobs) && Started(buildJob, each(xs[k]).jobs)
    ensures OfRun(run, ThenEach(each, xs).jobs) && Started(buildJob, ThenEach(each, xs).jobs)
    decreases |xs|
  {
    if |xs| > 0 {
      ThenEachOfRun(run, buildJob, each, xs[1..]);
    }
  }

  /** Nothing before a run changes nothing. */
  lemma ThenNothing(o: Outcome)
    ensures Then(Outcome([], None), o) == o
  {
    assert [] + o.jobs == o.jobs;
  }

  /** A step that starts nothing and raises nothing might as well not be
      there. */
  lemma {:induction false} InertStepDropped<T>(each: T -> Outcome, xs: seq<T>, i: nat)
    requires i < |xs| && each(xs[i]) == Outcome([], None)
    ensures ThenEach(each, xs) == ThenEach(each, xs[..i] + xs[i + 1..])
    decreases i
  {
    if i == 0 {
      assert xs[..0] + xs[1..] == xs[1..];
      ThenNothing(ThenEach(each, xs[1..]));
    } else {
      var rest, shorter := xs[1..], xs[..i] + xs[i + 1..];
      assert rest[i - 1] == xs[i];
      InertStepDropped(each, rest, i - 1);
      assert shorter[0] == xs[0];
      assert shorter[1..] == rest[..i - 1] + rest[i..] by {
        assert |shorter[1..]| == |rest[..i - 1] + rest[i..]|;
        forall k | 0 <= k < |shorter| - 1
          ensures shorter[1..][k] == (rest[..i - 1] + rest[i..])[k]
        {
          if k < i - 1 {
            assert shorter[1..][k] == xs[k + 1] == rest[k];
          } else {
            assert shorter[1..][k] == xs[k + 2] == rest[k + 1];
          }
        }
      }
    }
  }

  /** One section at a time. */
  function SectionStep(run: Run, buildJob: Starter): Section -> Outcome {
    section => SectionJobs(run, section, buildJob)
  }

  /** The sections in order. */
  function SectionsJobs(run: Run, sections: seq<Section>, buildJob: Starter): (o: Outcome)
    ensures OfRun(run, o.jobs) && Started(buildJob, o.jobs)
  {
    ThenEachOfRun(run, buildJob, SectionStep(run, buildJob), sections);
    ThenEach(SectionStep(run, buildJob), sections)
  }

  /** A section without a `platform` option is skipped, so it might as well
      not be there. */
  lemma PlatformlessSectionIsInert(run: Run, sections: seq<Section>, i: nat, buildJob: Starter)
    requires i < |sections| && OptionValue(sections[i].options, "platform").None?
    ensures SectionsJobs(run, sections, buildJob) == SectionsJobs(run, sections[..i] + sections[i + 1..], buildJob)
  {
    InertStepDropped(SectionStep(run, buildJob), sections, i);
  }

  /** The script: usage and the `testrun` section first, then every section;
      Jenkins is the `buildJob` parameter. */
  function Main(argc: nat, config: Config, buildJob: Starter): (o: Outcome)
    ensures argc != 2 ==> o == Outcome([], Some(External("usage")))
    ensures argc == 2 && config.testrun.Some? && "script" !in config.testrun.value ==>
              o == Outcome([], Some(KeyError("script")))
    ensures Started(buildJob, o.jobs)
    ensures forall k :: 0 <= k < |o.jobs| ==>
              (config.testrun.Some? && "script" in config.testrun.value
               && o.jobs[k].name == "ondemand_" + config.testrun.value["script"]
               && o.jobs[k].parameters.reportUrl == ReportUrl(config.testrun.value))
  {
    if argc != 2 then Outcome([], Some(External("usage")))
    else
      match config.testrun
      case None => Outcome([], Some(External("NoSectionError")))
      case Some(testrun) =>
        if "script" !in testrun then Outcome([], Some(KeyError("script")))
        else
          var run := Run(testrun, testrun["script"], ReportUrl(testrun));
          SectionsJobs(run, config.sections, buildJob)
  }

  /** A section with a known platform and one build starts the jobs of that
      build's locales in order, on the section's nodes, until Jenkins
      raises; when Jenkins starts every job, there is one per locale. */
  lemma OneBuildSection(run: Run, name: string, platform: string, v: VersionText, build: Option<string>,
                        locales: string, buildJob: Starter)
    requires EnvironmentPlatform(platform).Success?
    requires WellFormed(v)
    requires build.Some? ==> |build.value| > 0 && AllDigits(build.value)
    ensures var o := SectionJobs(run, Section(name, [("platform", platform), (VersionString(v) + BuildSuffix(build), locales)]), buildJob);
      && |o.jobs| <= |Split(locales, ' ')|
      && ((forall job :: buildJob(job).Pass?) ==> o.error.None? && |o.jobs| == |Split(locales, ' ')|)
      && forall k :: 0 <= k < |o.jobs| ==>
           && o.jobs[k].parameters.locale == Split(locales, ' ')[k]
           && o.jobs[k].parameters.version == VersionString(v)
           && o.jobs[k].parameters.buildNumber == build.GetOr("1")
           && o.jobs[k].parameters.nodes == Join(Split(name, ' '), " && ")
  {
    var options := [("platform", platform), (VersionString(v) + BuildSuffix(build), locales)];
    EntryRoundTrip(v, build);
    PlatformOptionIsNoEntry();
    assert OptionValue(options, "platform") == Some(platform);
    EntryJobsOfPlatformAndBuild(run, platform, Split(name, ' '), options, Entry(VersionString(v), build), buildJob);
  }

  /** The options of a section that names its platform and one build give
      that build's jobs, whatever Jenkins does. */
  lemma EntryJobsOfPlatformAndBuild(run: Run, platform: string, labels: seq<string>,
                                    options: seq<(string, string)>, e: Entry, buildJob: Starter)
    requires |options| == 2 && ParseEntry(options[0].0).None? && ParseEntry(options[1].0) == Some(e)
    ensures EntryJobs(run, platform, labels, options, buildJob) ==
              LocaleJobs(run, platform, labels, e, Split(options[1].1, ' '), buildJob)
  {
    var jobs := LocaleJobs(run, platform, labels, e, Split(options[1].1, ' '), buildJob);
    assert options[1..][0] == options[1] && options[1..][1..] == [];
    assert EntryJobs(run, platform, labels, options[1..], buildJob) == Then(jobs, Outcome([], None));
    assert jobs.jobs + [] == jobs.jobs;
  }
}
