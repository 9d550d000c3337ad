/** The test runner started by the Jenkins job
    (jenkins-master/jobs/scripts/workspace/runtests.py): it builds the
    mozharness command line of a functional or update run, starts it with
    the credentials removed from the environment, folds the process's return
    code into a buildbot exit code and leaves that code in `retval.json` for
    the report submission. The child process is an oracle. */
module RunTests {
  import opened Wrappers
  import opened Strings
  import opened Values
  import opened BuildBot

  /** The test types of the configuration, the only values argparse accepts
      for `--test-type`. */
  datatype TestType = Functional | Update

  /** The runner's part of `config['test_types'][type]`. */
  datatype TestSettings = TestSettings(harnessConfig: string, harnessScript: string)

  function SettingsOf(t: TestType): TestSettings {
    TestSettings(PathJoin("firefox_ui_tests", "qa_jenkins.py"),
                 PathJoin("firefox_ui_tests", if t == Functional then "functional.py" else "update.py"))
  }

  /** The parsed command line. `--repository` is a plain option (`None`
      only when absent); the other optional values have been through
      `JenkinsDefaultValueAction`, so the string `None` is already `None`. */
  datatype Options = Options(
    testType: TestType,
    installerUrl: string,
    repository: Option<string>,
    testPackagesUrl: Option<string>,
    allowMarChannel: Option<string>,
    channel: Option<string>,
    targetBuildid: Option<string>,
    targetVersion: Option<string>)

  /** A constructed runner: the repository is known to be a non-empty string. */
  datatype Runner = Runner(settings: TestSettings, repository: string, options: Options)

  /** `FunctionalRunner(settings, **kwargs)` or `UpdateRunner(...)`: both
      refuse a missing or empty repository. */
  function NewRunner(settings: TestSettings, o: Options): (r: Result<Runner>)
    ensures r.Success? <==> OptTruthy(o.repository)
    ensures r.Failure? ==> r.error.TypeError?
    ensures r.Success? ==> r.value.settings == settings && r.value.options == o
    ensures r.Success? ==> r.value.repository != "" && o.repository == Some(r.value.repository)
  {
    if OptTruthy(o.repository) then Success(Runner(settings, o.repository.value, o))
    else Failure(TypeError("repository"))
  }

  /** `args.extend([flag, value])` guarded by `if value:`. */
  function OptionalPair(flag: string, v: Option<string>): seq<string> {
    if OptTruthy(v) then [flag, v.value] else []
  }

  /** The value an optional pair carries into the command line. */
  function Passed(v: Option<string>): Option<string> {
    if OptTruthy(v) then v else None
  }

  /** `BaseRunner.query_args`. */
  function BaseArgs(settings: TestSettings, o: Options): (args: seq<string>)
    ensures |args| % 2 == 0 && |args| >= 4
    ensures args[..4] == ["--cfg", settings.harnessConfig, "--installer-url", o.installerUrl]
    ensures |args| == 4 <==> !OptTruthy(o.testPackagesUrl)
  {
    ["--cfg", settings.harnessConfig, "--installer-url", o.installerUrl]
      + OptionalPair("--test-packages-url", o.testPackagesUrl)
  }

  /** The update-only pairs, in their fixed order. */
  function UpdatePairs(o: Options): (args: seq<string>)
    ensures |args| % 2 == 0
    ensures |args| <= 8
  {
    OptionalPair("--update-allow-mar-channel", o.allowMarChannel)
      + OptionalPair("--update-channel", o.channel)
      + OptionalPair("--update-target-version", o.targetVersion)
      + OptionalPair("--update-target-buildid", o.targetBuildid)
  }

  /** `FunctionalRunner.query_args` and `UpdateRunner.query_args`. */
  function QueryArgs(r: Runner): (args: seq<string>)
    ensures |args| % 2 == 0
  {
    var base := BaseArgs(r.settings, r.options) + ["--firefox-ui-branch", r.repository];
    match r.options.testType
    case Functional => base
    case Update => base + UpdatePairs(r.options)
  }

  /** The value that follows the first `flag` of a flag/value list, as a
      command-line parser reads it back. */
  function FlagValue(args: seq<string>, flag: string): Option<string>
    decreases |args|
  {
    if |args| < 2 then None
    else if args[0] == flag then Some(args[1])
    else FlagValue(args[2..], flag)
  }

  /** A flag of the first half of a list is found there; any other is looked
      up in the second half. */
  lemma {:induction false} FlagValueAppend(a: seq<string>, b: seq<string>, flag: string)
    requires |a| % 2 == 0
    ensures FlagValue(a + b, flag) == (if FlagValue(a, flag).Some? then FlagValue(a, flag) else FlagValue(b, flag))
    decreases |a|
  {
    if |a| == 0 {
      assert a + b == b;
    } else {
      assert (a + b)[2..] == a[2..] + b;
      FlagValueAppend(a[2..], b, flag);
    }
  }

  /** The first of four consecutive flag/value lists that has the flag decides. */
  lemma FlagValueOfFour(a: seq<string>, b: seq<string>, c: seq<string>, d: seq<string>, flag: string)
    requires |a| % 2 == 0 && |b| % 2 == 0 && |c| % 2 == 0
    ensures FlagValue(a + b + c + d, flag) ==
              (if FlagValue(a, flag).Some? then FlagValue(a, flag)
               else if FlagValue(b, flag).Some? then FlagValue(b, flag)
               else if FlagValue(c, flag).Some? then FlagValue(c, flag)
               else FlagValue(d, flag))
  {
    FlagValueAppend(a, b, flag);
    FlagValueAppend(a + b, c, flag);
    FlagValueAppend(a + b + c, d, flag);
  }

  /** The flags of a flag/value list, in the order they appear. */
  function Flags(args: seq<string>): seq<string>
    decreases |args|
  {
    if |args| < 2 then [] else [args[0]] + Flags(args[2..])
  }

  lemma {:induction false} FlagsAppend(a: seq<string>, b: seq<string>)
    requires |a| % 2 == 0
    ensures Flags(a + b) == Flags(a) + Flags(b)
    decreases |a|
  {
    if |a| == 0 {
      assert a + b == b;
    } else {
      assert (a + b)[2..] == a[2..] + b;
      FlagsAppend(a[2..], b);
    }
  }

  /** `[flag]` when the value is passed, else nothing. */
  function FlagIf(flag: string, v: Option<string>): seq<string> {
    if OptTruthy(v) then [flag] else []
  }

  lemma FlagsOptional(flag: string, v: Option<string>)
    ensures Flags(OptionalPair(flag, v)) == FlagIf(flag, v)
  {
    if OptTruthy(v) {
      assert OptionalPair(flag, v)[2..] == [];
    }
  }

  /** The update flags come in the order of the source: mar channel,
      channel, target version, target build id, each only when passed. */
  lemma UpdatePairsOrder(o: Options)
    ensures Flags(UpdatePairs(o)) ==
              FlagIf("--update-allow-mar-channel", o.allowMarChannel)
              + FlagIf("--update-channel", o.channel)
              + FlagIf("--update-target-version", o.targetVersion)
              + FlagIf("--update-target-buildid", o.targetBuildid)
  {
    var a := OptionalPair("--update-allow-mar-channel", o.allowMarChannel);
    var b := OptionalPair("--update-channel", o.channel);
    var c := OptionalPair("--update-target-version", o.targetVersion);
    var d := OptionalPair("--update-target-buildid", o.targetBuildid);
    FlagsOptional("--update-allow-mar-channel", o.allowMarChannel);
    FlagsOptional("--update-channel", o.channel);
    FlagsOptional("--update-target-version", o.targetVersion);
    FlagsOptional("--update-target-buildid", o.targetBuildid);
    FlagsAppend(a, b);
    FlagsAppend(a + b, c);
    FlagsAppend(a + b + c, d);
  }

  /** The command line's flags in order: configuration, installer, the test
      packages when given, the branch, then for an update run the update
      flags. */
  lemma QueryArgsOrder(r: Runner)
    ensures Flags(QueryArgs(r)) ==
              ["--cfg", "--installer-url"] + FlagIf("--test-packages-url", r.options.testPackagesUrl)
              + ["--firefox-ui-branch"]
              + (if r.options.testType == Update then
                   FlagIf("--update-allow-mar-channel", r.options.allowMarChannel)
                   + FlagIf("--update-channel", r.options.channel)
                   + FlagIf("--update-target-version", r.options.targetVersion)
                   + FlagIf("--update-target-buildid", r.options.targetBuildid)
                 else [])
  {
    var o := r.options;
    var head := ["--cfg", r.settings.harnessConfig, "--installer-url", o.installerUrl];
    var tp := OptionalPair("--test-packages-url", o.testPackagesUrl);
    var branch := ["--firefox-ui-branch", r.repository];
    FlagsOptional("--test-packages-url", o.testPackagesUrl);
    assert head[2..][2..] == [];
    assert Flags(head) == ["--cfg", "--installer-url"];
    assert branch[2..] == [];
    FlagsAppend(head, tp);
    FlagsAppend(head + tp, branch);
    if o.testType == Update {
      FlagsAppend(head + tp + branch, UpdatePairs(o));
      UpdatePairsOrder(o);
    }
  }

  /** Reading one pair. */
  lemma FlagValuePair(f: string, v: string, flag: string)
    ensures FlagValue([f, v], flag) == (if f == flag then Some(v) else None)
  {
    assert [f, v][2..] == [];
  }

  /** Reading an optional pair. */
  lemma FlagValueOptional(f: string, v: Option<string>, flag: string)
    ensures FlagValue(OptionalPair(f, v), flag) == (if f == flag then Passed(v) else None)
  {
    if OptTruthy(v) {
      FlagValuePair(f, v.value, flag);
    }
  }

  /** Reading the required pairs, the test-packages pair and the branch pair back. */
  lemma BaseArgsRoundTrip(r: Runner, flag: string)
    ensures var base := BaseArgs(r.settings, r.options) + ["--firefox-ui-branch", r.repository];
      FlagValue(base, flag) ==
        (if flag == "--cfg" then Some(r.settings.harnessConfig)
         else if flag == "--installer-url" then Some(r.options.installerUrl)
         else if flag == "--test-packages-url" then Passed(r.options.testPackagesUrl)
         else if flag == "--firefox-ui-branch" then Some(r.repository)
         else None)
  {
    var cfg := ["--cfg", r.settings.harnessConfig];
    var installer := ["--installer-url", r.options.installerUrl];
    var packages := OptionalPair("--test-packages-url", r.options.testPackagesUrl);
    var branch := ["--firefox-ui-branch", r.repository];
    assert BaseArgs(r.settings, r.options) + branch == cfg + installer + packages + branch;
    FlagValueOfFour(cfg, installer, packages, branch, flag);
    FlagValuePair("--cfg", r.settings.harnessConfig, flag);
    FlagValuePair("--installer-url", r.options.installerUrl, flag);
    FlagValueOptional("--test-packages-url", r.options.testPackagesUrl, flag);
    FlagValuePair("--firefox-ui-branch", r.repository, flag);
  }

  /** Reading the update pairs back. */
  lemma UpdatePairsRoundTrip(o: Options, flag: string)
    ensures FlagValue(UpdatePairs(o), flag) ==
              (if flag == "--update-allow-mar-channel" then Passed(o.allowMarChannel)
               else if flag == "--update-channel" then Passed(o.channel)
               else if flag == "--update-target-version" then Passed(o.targetVersion)
               else if flag == "--update-target-buildid" then Passed(o.targetBuildid)
               else None)
  {
    var p1 := OptionalPair("--update-allow-mar-channel", o.allowMarChannel);
    var p2 := OptionalPair("--update-channel", o.channel);
    var p3 := OptionalPair("--update-target-version", o.targetVersion);
    var p4 := OptionalPair("--update-target-buildid", o.targetBuildid);
    FlagValueOfFour(p1, p2, p3, p4, flag);
    FlagValueOptional("--update-allow-mar-channel", o.allowMarChannel, flag);
    FlagValueOptional("--update-channel", o.channel, flag);
    FlagValueOptional("--update-target-version", o.targetVersion, flag);
    FlagValueOptional("--update-target-buildid", o.targetBuildid, flag);
  }

  /** Every argument of the command line is read back from it: the
      required ones always, an optional one exactly when it is truthy, and
      the update-only ones only for an update run. */
  lemma QueryArgsRoundTrip(r: Runner, flag: string)
    ensures FlagValue(QueryArgs(r), flag) ==
              (if flag == "--cfg" then Some(r.settings.harnessConfig)
               else if flag == "--installer-url" then Some(r.options.installerUrl)
               else if flag == "--test-packages-url" then Passed(r.options.testPackagesUrl)
               else if flag == "--firefox-ui-branch" then Some(r.repository)
               else if r.options.testType == Functional then None
               else if flag == "--update-allow-mar-channel" then Passed(r.options.allowMarChannel)
               else if flag == "--update-channel" then Passed(r.options.channel)
               else if flag == "--update-target-version" then Passed(r.options.targetVersion)
               else if flag == "--update-target-buildid" then Passed(r.options.targetBuildid)
               else None)
  {
    var base := BaseArgs(r.settings, r.options) + ["--firefox-ui-branch", r.repository];
    BaseArgsRoundTrip(r, flag);
    if r.options.testType == Update {
      FlagValueAppend(base, UpdatePairs(r.options), flag);
      UpdatePairsRoundTrip(r.options, flag);
    }
  }

  /** The credentials the tests must not see. */
  const PurgedVariables: seq<string> :=
    ["AWS_BUCKET", "AWS_ACCESS_KEY_ID", "AWS_SECRET_ACCESS_KEY",
     "TREEHERDER_URL", "TREEHERDER_CLIENT_ID", "TREEHERDER_SECRET"]

  /** Where mozcrash saves a copy of the minidumps. */
  const MinidumpVariable: string := "MINIDUMP_SAVE_PATH"

  type Env = map<string, string>

  /** `env.pop(var, None)` for each variable in turn. */
  function PopAll(env: Env, vars: seq<string>): (r: Env)
    ensures r.Keys == env.Keys - set v | v in vars
    ensures forall k :: k in r ==> r[k] == env[k]
    decreases |vars|
  {
    if |vars| == 0 then env else PopAll(env - {vars[0]}, vars[1..])
  }

  /** The environment of the test process: the parent's, without the
      credentials, with the minidump folder set. */
  function ChildEnv(env: Env, here: string): (r: Env)
    ensures r.Keys == (env.Keys - set v | v in PurgedVariables) + {MinidumpVariable}
    ensures r[MinidumpVariable] == PathJoin(here, "minidumps")
    ensures forall k :: k in env && k !in PurgedVariables && k != MinidumpVariable ==> r[k] == env[k]
  {
    PopAll(env, PurgedVariables)[MinidumpVariable := PathJoin(here, "minidumps")]
  }

  /** No credential reaches the tests, whatever the parent environment held. */
  lemma NoCredentialReachesTests(env: Env, here: string, v: string)
    requires v in PurgedVariables
    ensures v !in ChildEnv(env, here)
  {
  }

  /** Preparing an already prepared environment changes nothing. */
  lemma MinidumpNotPurged()
    ensures MinidumpVariable !in PurgedVariables
  {
  }

  lemma ChildEnvIdempotent(env: Env, here: string)
    ensures ChildEnv(ChildEnv(env, here), here) == ChildEnv(env, here)
  {
    MinidumpNotPurged();
    var once := ChildEnv(env, here);
    var twice := ChildEnv(once, here);
    assert twice.Keys == once.Keys;
    forall k | k in once ensures twice[k] == once[k] {
    }
  }

  /** `[sys.executable, '-u', os.path.join('mozharness', 'scripts', script)] + args`. */
  function Command(python: string, r: Runner): (cmd: seq<string>)
    ensures |cmd| >= 3 && cmd[0] == python && cmd[1] == "-u"
    ensures EndsWith(cmd[2], r.settings.harnessScript)
    ensures cmd[3..] == QueryArgs(r)
  {
    [python, "-u", PathJoin(PathJoin("mozharness", "scripts"), r.settings.harnessScript)] + QueryArgs(r)
  }

  /** `subprocess.check_call(command, env=env)`: the return code, or an
      `OSError` when the process cannot be started. */
  type Process = (seq<string>, Env) -> Result<int>

  /** The exit code recorded for a return code: success for 0, the code
      itself when it indexes `BuildExitCode`, busted otherwise. */
  function ExitCode(rc: int): (code: int)
    ensures ValidIndex(code)
    ensures rc == 0 ==> code == CodeSuccess
    ensures ValidIndex(rc) ==> code == rc
    ensures !ValidIndex(rc) ==> code == CodeBusted
  {
    if rc == 0 then CodeSuccess
    else if ValidIndex(rc) then rc
    else CodeBusted
  }

  /** Every recorded code names a `BuildExitCode`; a non-negative one is
      its ordinal, and recording it again changes nothing. */
  lemma ExitCodeNamed(rc: int)
    ensures NameAt(ExitCode(rc)).Success?
    ensures rc >= 0 ==> 0 <= ExitCode(rc) < |Names| && Ordinal(NameAt(ExitCode(rc)).value) == Success(ExitCode(rc))
    ensures ExitCode(ExitCode(rc)) == ExitCode(rc)
  {
    if rc >= 0 {
      OrdinalOfName(ExitCode(rc));
    }
  }

  /** `BaseRunner.run`. */
  function Run(r: Runner, python: string, here: string, env: Env, process: Process): (res: Result<int>)
    ensures res.Success? <==> process(Command(python, r), ChildEnv(env, here)).Success?
    ensures res.Success? ==> res.value == ExitCode(process(Command(python, r), ChildEnv(env, here)).value)
    ensures res.Success? ==> ValidIndex(res.value)
  {
    var rc :- process(Command(python, r), ChildEnv(env, here));
    Success(ExitCode(rc))
  }

  /** What `main` leaves behind: the text of `retval.json` and the exception
      that escapes after the file is written. */
  datatype MainOutcome = MainOutcome(retval: string, error: Option<Error>)

  /** `main`: the runner of the test type, run; busted is written unless the
      runner returned. `parsed` is `None` when argparse rejects the command
      line. */
  function Main(parsed: Option<Options>, python: string, here: string, env: Env, process: Process): (m: MainOutcome)
    ensures parsed.None? ==> m == MainOutcome(IntToString(CodeBusted), Some(External("usage")))
    ensures m.error.Some? ==> m.retval == IntToString(CodeBusted)
    ensures m.error.None? ==> parsed.Some? && OptTruthy(parsed.value.repository)
    ensures parsed.Some? && !OptTruthy(parsed.value.repository) ==> m.error.Some? && m.error.value.TypeError?
  {
    match parsed
    case None => MainOutcome(IntToString(CodeBusted), Some(External("usage")))
    case Some(o) =>
      match NewRunner(SettingsOf(o.testType), o)
      case Failure(e) => MainOutcome(IntToString(CodeBusted), Some(e))
      case Success(runner) =>
        match Run(runner, python, here, env, process)
        case Failure(e) => MainOutcome(IntToString(CodeBusted), Some(e))
        case Success(code) => MainOutcome(IntToString(code), None)
  }

  /** Whatever happens, `retval.json` holds an integer that indexes
      `BuildExitCode`, and it is busted unless the tests ran. */
  lemma MainRecordsExitCode(parsed: Option<Options>, python: string, here: string, env: Env, process: Process)
    ensures var m := Main(parsed, python, here, env, process);
      && ParseInt(m.retval).Some? && ValidIndex(ParseInt(m.retval).value)
      && (m.error.Some? ==> ParseInt(m.retval) == Some(CodeBusted))
  {
    var m := Main(parsed, python, here, env, process);
    IntToStringRoundTrip(CodeBusted);
    if m.error.None? {
      var o := parsed.value;
      var runner := NewRunner(SettingsOf(o.testType), o).value;
      var code := Run(runner, python, here, env, process).value;
      IntToStringRoundTrip(code);
    }
  }
}
