/** The release test runner (jenkins-master/jobs/scripts/workspace/runtests_release.py):
    it downloads the build under test with mozdownload and then starts the
    firefox-ui-tests harness on it. Virtualenv handling is left out; the
    child processes and the installer glob are oracles. */
module ReleaseRunner {
  import opened Wrappers
  import opened Strings
  import opened Values

  /** The optparse values. An option not given is `None`, except the
      locale and build type, which default to `en-US` and `candidate`. */
  datatype ReleaseOptions = ReleaseOptions(
    testType: Option<string>,
    platform: Option<string>,
    buildLocale: Option<string>,
    buildNumber: Option<string>,
    buildType: Option<string>,
    buildVersion: Option<string>,
    updateChannel: Option<string>,
    updateTargetBuildId: Option<string>,
    updateTargetVersion: Option<string>)

  /** The Jenkins job passes the string `None` for an unset parameter:
      `if value and value != 'None'`. */
  predicate Given(v: Option<string>) {
    OptTruthy(v) && v.value != "None"
  }

  /** `'--name=%s' % value`. */
  function Setting(name: string, value: string): (arg: string)
    ensures |name| > 2 ==> |arg| > 2 && arg[2] == name[2]
  {
    name + "=" + value
  }

  /** `arg` sets the option `name`: it is `name=...`. */
  predicate Sets(arg: string, name: string) {
    StartsWith(arg, name + "=")
  }

  /** Each argument of `cmd` sets the option at the same place of `names`. */
  predicate SetsEach(cmd: seq<string>, names: seq<string>) {
    |cmd| == |names| && forall k :: 0 <= k < |cmd| ==> Sets(cmd[k], names[k])
  }

  lemma SetsEachAppend(a: seq<string>, na: seq<string>, b: seq<string>, nb: seq<string>)
    requires SetsEach(a, na) && SetsEach(b, nb)
    ensures SetsEach(a + b, na + nb)
  {
    forall k | |a| <= k < |a| + |b|
      ensures Sets((a + b)[k], (na + nb)[k])
    {
      assert (a + b)[k] == b[k - |a|] && (na + nb)[k] == nb[k - |a|];
    }
  }

  /** A setting sets the option it is named after. */
  lemma SettingSets(name: string, value: string)
    ensures SetsEach([Setting(name, value)], [name])
  {
    assert (name + "=" + value)[..|name + "="|] == name + "=";
  }

  /** `Runner.download_build`'s command. */
  function DownloadCommand(buildPath: string, o: ReleaseOptions): (cmd: seq<string>)
    ensures |cmd| == (if Given(o.buildNumber) then 7 else 6)
    ensures cmd[0] == "mozdownload"
  {
    ["mozdownload",
     Setting("--destination", buildPath),
     Setting("--type", OptStr(o.buildType)),
     Setting("--version", OptStr(o.buildVersion)),
     Setting("--locale", OptStr(o.buildLocale)),
     Setting("--platform", OptStr(o.platform))]
    + (if Given(o.buildNumber) then [Setting("--build-number", o.buildNumber.value)] else [])
  }

  /** The value of the first `--name=value` argument, as a parser of such
      arguments reads it back. */
  function OptionValue(cmd: seq<string>, name: string): Option<string>
    decreases |cmd|
  {
    if |cmd| == 0 then None
    else if StartsWith(cmd[0], name + "=") then Some(cmd[0][|name| + 1..])
    else OptionValue(cmd[1..], name)
  }

  /** An option of the first part of a command is found there; any other is
      looked up in the rest. */
  lemma {:induction false} OptionValueAppend(a: seq<string>, b: seq<string>, name: string)
    ensures OptionValue(a + b, name) == (if OptionValue(a, name).Some? then OptionValue(a, name) else OptionValue(b, name))
    decreases |a|
  {
    if |a| == 0 {
      assert a + b == b;
    } else {
      assert (a + b)[0] == a[0] && (a + b)[1..] == a[1..] + b;
      OptionValueAppend(a[1..], b, name);
    }
  }

  /** An argument that differs from `prefix` at some position does not start with it. */
  lemma DiffersAt(x: string, prefix: string, i: nat)
    requires i < |x| && i < |prefix| && x[i] != prefix[i]
    ensures !StartsWith(x, prefix)
  {
    if |prefix| <= |x| {
      assert x[..|prefix|][i] == x[i];
    }
  }

  /** The option is found at position `k` when no earlier argument has its prefix. */
  lemma {:induction false} OptionValueAt(cmd: seq<string>, name: string, k: nat, value: string)
    requires k < |cmd| && cmd[k] == Setting(name, value)
    requires forall j :: 0 <= j < k ==> !StartsWith(cmd[j], name + "=")
    ensures OptionValue(cmd, name) == Some(value)
    decreases k
  {
    if k == 0 {
      var arg := Setting(name, value);
      assert arg[..|name| + 1] == name + "=";
      assert arg[|name| + 1..] == value;
    } else {
      OptionValueAt(cmd[1..], name, k - 1, value);
    }
  }

  /** No argument has the option's prefix. */
  lemma {:induction false} OptionValueAbsent(cmd: seq<string>, name: string)
    requires forall j :: 0 <= j < |cmd| ==> !StartsWith(cmd[j], name + "=")
    ensures OptionValue(cmd, name) == None
    decreases |cmd|
  {
    if |cmd| > 0 {
      OptionValueAbsent(cmd[1..], name);
    }
  }

  /** Options are told apart by the letter after their dashes: no argument
      before position `k` whose letter differs has the option's prefix. */
  lemma NoEarlierMatch(cmd: seq<string>, name: string, k: nat)
    requires k <= |cmd| && |name| > 2
    requires forall j :: 0 <= j < k ==> |cmd[j]| > 2 && cmd[j][2] != name[2]
    ensures forall j :: 0 <= j < k ==> !StartsWith(cmd[j], name + "=")
  {
    forall j | 0 <= j < k ensures !StartsWith(cmd[j], name + "=") {
      DiffersAt(cmd[j], name + "=", 2);
    }
  }

  /** The download command's fixed options are read back as given. */
  lemma DownloadFixedOptions(buildPath: string, o: ReleaseOptions)
    ensures var cmd := DownloadCommand(buildPath, o);
      && OptionValue(cmd, "--destination") == Some(buildPath)
      && OptionValue(cmd, "--type") == Some(OptStr(o.buildType))
      && OptionValue(cmd, "--version") == Some(OptStr(o.buildVersion))
  {
    var cmd := DownloadCommand(buildPath, o);
    assert cmd[0][2] == 'z';
    NoEarlierMatch(cmd, "--destination", 1);
    OptionValueAt(cmd, "--destination", 1, buildPath);
    NoEarlierMatch(cmd, "--type", 2);
    OptionValueAt(cmd, "--type", 2, OptStr(o.buildType));
    NoEarlierMatch(cmd, "--version", 3);
    OptionValueAt(cmd, "--version", 3, OptStr(o.buildVersion));
  }

  /** mozdownload reads back what the runner was given, each option once,
      and the build number only when it was given. */
  lemma DownloadCommandRoundTrip(buildPath: string, o: ReleaseOptions)
    ensures var cmd := DownloadCommand(buildPath, o);
      && OptionValue(cmd, "--destination") == Some(buildPath)
      && OptionValue(cmd, "--type") == Some(OptStr(o.buildType))
      && OptionValue(cmd, "--version") == Some(OptStr(o.buildVersion))
      && OptionValue(cmd, "--locale") == Some(OptStr(o.buildLocale))
      && OptionValue(cmd, "--platform") == Some(OptStr(o.platform))
      && OptionValue(cmd, "--build-number") == (if Given(o.buildNumber) then o.buildNumber else None)
  {
    DownloadFixedOptions(buildPath, o);
    DownloadBuildOptions(buildPath, o);
  }

  lemma DownloadBuildOptions(buildPath: string, o: ReleaseOptions)
    ensures var cmd := DownloadCommand(buildPath, o);
      && OptionValue(cmd, "--locale") == Some(OptStr(o.buildLocale))
      && OptionValue(cmd, "--platform") == Some(OptStr(o.platform))
      && OptionValue(cmd, "--build-number") == (if Given(o.buildNumber) then o.buildNumber else None)
  {
    var cmd := DownloadCommand(buildPath, o);
    assert cmd[0][2] == 'z';
    NoEarlierMatch(cmd, "--locale", 4);
    OptionValueAt(cmd, "--locale", 4, OptStr(o.buildLocale));
    NoEarlierMatch(cmd, "--platform", 5);
    OptionValueAt(cmd, "--platform", 5, OptStr(o.platform));
    NoEarlierMatch(cmd, "--build-number", 6);
    if Given(o.buildNumber) {
      OptionValueAt(cmd, "--build-number", 6, o.buildNumber.value);
    } else {
      OptionValueAbsent(cmd, "--build-number");
    }
  }

  /** `'--name=%s' % value` appended when the value is given. */
  function OptionalSetting(name: string, v: Option<string>): seq<string> {
    if Given(v) then [Setting(name, v.value)] else []
  }

  /** An optional setting is read back under its own name when given. */
  lemma OptionalSettingSame(name: string, v: Option<string>)
    ensures OptionValue(OptionalSetting(name, v), name) == (if Given(v) then v else None)
  {
    if Given(v) {
      OptionValueAt(OptionalSetting(name, v), name, 0, v.value);
    }
  }

  /** ... and never under a name that differs from its own at position `i`. */
  lemma OptionalSettingOther(name: string, v: Option<string>, other: string, i: nat)
    requires i < |name| && i < |other| && name[i] != other[i]
    ensures OptionValue(OptionalSetting(name, v), other) == None
  {
    if Given(v) {
      var arg := Setting(name, v.value);
      assert arg[i] == name[i];
      DiffersAt(arg, other + "=", i);
      OptionValueAbsent(OptionalSetting(name, v), other);
    }
  }

  /** The first of four consecutive parts that has the option decides. */
  lemma OptionValueOfFour(a: seq<string>, b: seq<string>, c: seq<string>, d: seq<string>, name: string)
    ensures OptionValue(a + b + c + d, name) ==
              (if OptionValue(a, name).Some? then OptionValue(a, name)
               else if OptionValue(b, name).Some? then OptionValue(b, name)
               else if OptionValue(c, name).Some? then OptionValue(c, name)
               else OptionValue(d, name))
  {
    OptionValueAppend(a, b, name);
    OptionValueAppend(a + b, c, name);
    OptionValueAppend(a + b + c, d, name);
  }

  /** The download command names mozdownload, then sets destination, type,
      version, locale and platform in this order, and the build number last
      when it is given. */
  lemma DownloadCommandOrder(buildPath: string, o: ReleaseOptions)
    ensures DownloadCommand(buildPath, o)[0] == "mozdownload"
    ensures SetsEach(DownloadCommand(buildPath, o)[1..],
                     ["--destination", "--type", "--version", "--locale", "--platform"]
                     + NameIf("--build-number", o.buildNumber))
  {
    var d := Setting("--destination", buildPath);
    var t := Setting("--type", OptStr(o.buildType));
    var v := Setting("--version", OptStr(o.buildVersion));
    var l := Setting("--locale", OptStr(o.buildLocale));
    var p := Setting("--platform", OptStr(o.platform));
    var tail := OptionalSetting("--build-number", o.buildNumber);
    assert DownloadCommand(buildPath, o)[1..] == [d] + [t] + [v] + [l] + [p] + tail;
    SettingSets("--destination", buildPath);
    SettingSets("--type", OptStr(o.buildType));
    SettingSets("--version", OptStr(o.buildVersion));
    SettingSets("--locale", OptStr(o.buildLocale));
    SettingSets("--platform", OptStr(o.platform));
    OptionalSettingSets("--build-number", o.buildNumber);
    SetsEachAppend([d], ["--destination"], [t], ["--type"]);
    SetsEachAppend([d] + [t], ["--destination", "--type"], [v], ["--version"]);
    SetsEachAppend([d] + [t] + [v], ["--destination", "--type", "--version"], [l], ["--locale"]);
    SetsEachAppend([d] + [t] + [v] + [l], ["--destination", "--type", "--version", "--locale"], [p], ["--platform"]);
    SetsEachAppend([d] + [t] + [v] + [l] + [p], ["--destination", "--type", "--version", "--locale", "--platform"],
                   tail, NameIf("--build-number", o.buildNumber));
  }

  /** `[name]` when the value is given, else nothing. */
  function NameIf(name: string, v: Option<string>): seq<string> {
    if Given(v) then [name] else []
  }

  lemma OptionalSettingSets(name: string, v: Option<string>)
    ensures SetsEach(OptionalSetting(name, v), NameIf(name, v))
  {
    if Given(v) {
      SettingSets(name, v.value);
    }
  }

  /** The test modules' manifests (`firefox_puppeteer.manifest`,
      `firefox_ui_tests.manifest_functional`, `firefox_ui_tests.manifest_remote`). */
  datatype Manifests = Manifests(puppeteer: string, functional: string, remote: string)

  /** The harness: the update harness exactly for update runs. */
  function Executable(o: ReleaseOptions): string {
    if o.testType == Some("update") then "firefox-ui-update" else "firefox-ui-tests"
  }

  /** What an update run adds: console Gecko logging, then the channel and
      the targets that are given, in this order. */
  function UpdateExtras(o: ReleaseOptions): (extras: seq<string>)
    ensures 1 <= |extras| <= 4 && extras[0] == "--gecko-log=-"
  {
    [Setting("--gecko-log", "-")]
      + OptionalSetting("--update-channel", o.updateChannel)
      + OptionalSetting("--update-target-version", o.updateTargetVersion)
      + OptionalSetting("--update-target-buildid", o.updateTargetBuildId)
  }

  /** An update run's extras set the Gecko log first, then channel, target
      version and target build id, each only when given. */
  lemma UpdateExtrasOrder(o: ReleaseOptions)
    ensures SetsEach(UpdateExtras(o),
                     ["--gecko-log"] + NameIf("--update-channel", o.updateChannel)
                     + NameIf("--update-target-version", o.updateTargetVersion)
                     + NameIf("--update-target-buildid", o.updateTargetBuildId))
  {
    var a := [Setting("--gecko-log", "-")];
    var b := OptionalSetting("--update-channel", o.updateChannel);
    var c := OptionalSetting("--update-target-version", o.updateTargetVersion);
    var d := OptionalSetting("--update-target-buildid", o.updateTargetBuildId);
    var na := ["--gecko-log"];
    var nb := NameIf("--update-channel", o.updateChannel);
    var nc := NameIf("--update-target-version", o.updateTargetVersion);
    var nd := NameIf("--update-target-buildid", o.updateTargetBuildId);
    SettingSets("--gecko-log", "-");
    OptionalSettingSets("--update-channel", o.updateChannel);
    OptionalSettingSets("--update-target-version", o.updateTargetVersion);
    OptionalSettingSets("--update-target-buildid", o.updateTargetBuildId);
    SetsEachAppend(a, na, b, nb);
    SetsEachAppend(a + b, na + nb, c, nc);
    SetsEachAppend(a + b + c, na + nb + nc, d, nd);
  }

  /** The arguments every test run starts with. */
  function TestPrefix(o: ReleaseOptions, installer: string): seq<string> {
    [Executable(o), Setting("--installer", installer),
     Setting("--log-xunit", "report.xml"), Setting("--log-html", "report.html")]
  }

  /** `Runner.run_tests`'s test command; `installers` is what the glob for
      the downloaded build finds, and an empty result raises `IndexError`. */
  function TestCommand(o: ReleaseOptions, installers: seq<string>, m: Manifests): (r: Result<seq<string>>)
    ensures r.Success? <==> |installers| > 0
    ensures r.Failure? ==> r.error == IndexError(0)
    ensures r.Success? ==> |r.value| >= 4 && r.value[..4] == TestPrefix(o, installers[0])
    ensures r.Success? ==> (r.value[0] == "firefox-ui-update" <==> o.testType == Some("update"))
    ensures r.Success? && o.testType == Some("functional") ==> r.value[4..] == [m.puppeteer, m.functional]
    ensures r.Success? && o.testType == Some("remote") ==> r.value[4..] == [m.remote]
    ensures r.Success? && o.testType !in {Some("update"), Some("functional"), Some("remote")} ==> |r.value| == 4
  {
    if |installers| == 0 then Failure(IndexError(0))
    else
      var extras :=
        if o.testType == Some("update") then UpdateExtras(o)
        else if o.testType == Some("functional") then [m.puppeteer, m.functional]
        else if o.testType == Some("remote") then [m.remote]
        else [];
      Success(TestPrefix(o, installers[0]) + extras)
  }

  /** Reading the update extras back: console logging always, each update
      setting when it was given. */
  lemma UpdateExtrasRoundTrip(o: ReleaseOptions)
    ensures OptionValue(UpdateExtras(o), "--gecko-log") == Some("-")
    ensures OptionValue(UpdateExtras(o), "--update-channel") == (if Given(o.updateChannel) then o.updateChannel else None)
    ensures OptionValue(UpdateExtras(o), "--update-target-version") ==
              (if Given(o.updateTargetVersion) then o.updateTargetVersion else None)
    ensures OptionValue(UpdateExtras(o), "--update-target-buildid") ==
              (if Given(o.updateTargetBuildId) then o.updateTargetBuildId else None)
  {
    var g := [Setting("--gecko-log", "-")];
    var c := OptionalSetting("--update-channel", o.updateChannel);
    var v := OptionalSetting("--update-target-version", o.updateTargetVersion);
    var b := OptionalSetting("--update-target-buildid", o.updateTargetBuildId);
    OptionValueAt(g, "--gecko-log", 0, "-");
    OptionValueOfFour(g, c, v, b, "--gecko-log");
    ExtrasChannel(o);
    ExtrasTargetVersion(o);
    ExtrasTargetBuildId(o);
  }

  lemma ExtrasChannel(o: ReleaseOptions)
    ensures OptionValue(UpdateExtras(o), "--update-channel") == (if Given(o.updateChannel) then o.updateChannel else None)
  {
    var name := "--update-channel";
    var g := [Setting("--gecko-log", "-")];
    var c := OptionalSetting(name, o.updateChannel);
    var v := OptionalSetting("--update-target-version", o.updateTargetVersion);
    var b := OptionalSetting("--update-target-buildid", o.updateTargetBuildId);
    OptionValueOfFour(g, c, v, b, name);
    NoEarlierMatch(g, name, 1);
    OptionValueAbsent(g, name);
    OptionalSettingSame(name, o.updateChannel);
    OptionalSettingOther("--update-target-version", o.updateTargetVersion, name, 9);
    OptionalSettingOther("--update-target-buildid", o.updateTargetBuildId, name, 9);
  }

  lemma ExtrasTargetVersion(o: ReleaseOptions)
    ensures OptionValue(UpdateExtras(o), "--update-target-version") ==
              (if Given(o.updateTargetVersion) then o.updateTargetVersion else None)
  {
    var name := "--update-target-version";
    var g := [Setting("--gecko-log", "-")];
    var c := OptionalSetting("--update-channel", o.updateChannel);
    var v := OptionalSetting(name, o.updateTargetVersion);
    var b := OptionalSetting("--update-target-buildid", o.updateTargetBuildId);
    OptionValueOfFour(g, c, v, b, name);
    NoEarlierMatch(g, name, 1);
    OptionValueAbsent(g, name);
    OptionalSettingOther("--update-channel", o.updateChannel, name, 9);
    OptionalSettingSame(name, o.updateTargetVersion);
    OptionalSettingOther("--update-target-buildid", o.updateTargetBuildId, name, 16);
  }

  lemma ExtrasTargetBuildId(o: ReleaseOptions)
    ensures OptionValue(UpdateExtras(o), "--update-target-buildid") ==
              (if Given(o.updateTargetBuildId) then o.updateTargetBuildId else None)
  {
    var name := "--update-target-buildid";
    var g := [Setting("--gecko-log", "-")];
    var c := OptionalSetting("--update-channel", o.updateChannel);
    var v := OptionalSetting("--update-target-version", o.updateTargetVersion);
    var b := OptionalSetting(name, o.updateTargetBuildId);
    OptionValueOfFour(g, c, v, b, name);
    NoEarlierMatch(g, name, 1);
    OptionValueAbsent(g, name);
    OptionalSettingOther("--update-channel", o.updateChannel, name, 9);
    OptionalSettingOther("--update-target-version", o.updateTargetVersion, name, 16);
    OptionalSettingSame(name, o.updateTargetBuildId);
  }

  /** An update run's harness reads back the installer, console Gecko
      logging, and exactly the update settings that were given. */
  lemma UpdateCommandRoundTrip(o: ReleaseOptions, installers: seq<string>, m: Manifests)
    requires o.testType == Some("update") && |installers| > 0
    ensures var cmd := TestCommand(o, installers, m).value;
      && OptionValue(cmd, "--installer") == Some(installers[0])
      && OptionValue(cmd, "--gecko-log") == Some("-")
      && OptionValue(cmd, "--update-channel") == (if Given(o.updateChannel) then o.updateChannel else None)
      && OptionValue(cmd, "--update-target-version") ==
           (if Given(o.updateTargetVersion) then o.updateTargetVersion else None)
      && OptionValue(cmd, "--update-target-buildid") ==
           (if Given(o.updateTargetBuildId) then o.updateTargetBuildId else None)
  {
    var prefix := TestPrefix(o, installers[0]);
    var extras := UpdateExtras(o);
    assert prefix[0][2] == 'r';
    UpdateExtrasRoundTrip(o);
    NoEarlierMatch(prefix, "--installer", 1);
    OptionValueAt(prefix, "--installer", 1, installers[0]);
    OptionValueAppend(prefix, extras, "--installer");
    NoEarlierMatch(prefix, "--gecko-log", 4);
    OptionValueAbsent(prefix, "--gecko-log");
    OptionValueAppend(prefix, extras, "--gecko-log");
    UpdatePrefixSilent(o, installers[0], "--update-channel");
    OptionValueAppend(prefix, extras, "--update-channel");
    UpdatePrefixSilent(o, installers[0], "--update-target-version");
    OptionValueAppend(prefix, extras, "--update-target-version");
    UpdatePrefixSilent(o, installers[0], "--update-target-buildid");
    OptionValueAppend(prefix, extras, "--update-target-buildid");
  }

  /** The fixed prefix names no update option. */
  lemma UpdatePrefixSilent(o: ReleaseOptions, installer: string, name: string)
    requires |name| > 2 && name[2] == 'u'
    ensures OptionValue(TestPrefix(o, installer), name) == None
  {
    var prefix := TestPrefix(o, installer);
    assert prefix[0][2] == 'r';
    NoEarlierMatch(prefix, name, 4);
    OptionValueAbsent(prefix, name);
  }

  /** `check_call(command)` for one command: its return code, or the
      failure to start it. */
  type Process = seq<string> -> Result<int>

  /** The commands that ran, and the exception that ended the script. */
  datatype ReleaseRun = ReleaseRun(started: seq<seq<string>>, error: Option<Error>)

  /** `Runner.run_tests`: the download, then the tests on the installer the
      download left. A command that exits non-zero raises `CalledProcessError`. */
  function RunReleaseTests(o: ReleaseOptions, buildPath: string, installers: seq<string>, m: Manifests,
                           process: Process): (run: ReleaseRun)
    ensures |run.started| >= 1 && run.started[0] == DownloadCommand(buildPath, o)
    ensures |run.started| <= 2
    ensures |run.started| == 2 <==> process(DownloadCommand(buildPath, o)) == Success(0) && |installers| > 0
    ensures |run.started| == 2 ==> run.started[1] == TestCommand(o, installers, m).value
    ensures run.error.None? <==> |run.started| == 2 && process(run.started[1]) == Success(0)
  {
    var download := DownloadCommand(buildPath, o);
    match process(download)
    case Failure(e) => ReleaseRun([download], Some(e))
    case Success(rc) =>
      if rc != 0 then ReleaseRun([download], Some(External("CalledProcessError")))
      else
        match TestCommand(o, installers, m)
        case Failure(e) => ReleaseRun([download], Some(e))
        case Success(test) =>
          match process(test)
          case Failure(e) => ReleaseRun([download, test], Some(e))
          case Success(rc2) =>
            ReleaseRun([download, test], if rc2 == 0 then None else Some(External("CalledProcessError")))
  }
}
