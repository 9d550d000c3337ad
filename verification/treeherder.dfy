/** The Treeherder side of a test run
    (jenkins-master/jobs/scripts/workspace/treeherder.py): the platform
    triple of the host, the life of a `FirefoxUITestJob` from running to
    completed, and `JobResultParser`, which picks the failure lines out of a
    log and summarises them. The host information (`mozinfo`), the clock,
    the job GUID and the host name are inputs. */
module TreeherderReport {
  import opened Wrappers
  import opened Strings
  import opened Values

  /** What `mozinfo.info` reports about the host. */
  datatype HostInfo = HostInfo(os: string, bits: int, processor: string, osVersion: string)

  /** Treeherder's (os, platform, architecture) triple. */
  datatype PlatformTriple = PlatformTriple(os: string, platform: string, architecture: string)

  /** The Windows releases Treeherder knows, by kernel version. */
  const WindowsVersions: map<string, string> := map["5.1" := "xp", "6.1" := "7", "6.2" := "8"]

  /** `_get_treeherder_platform`: `None` for an unknown OS, a `KeyError`
      for an unknown Windows version. */
  function TreeherderPlatform(info: HostInfo): (r: Result<Option<PlatformTriple>>)
    ensures r.Failure? <==> info.os == "win" && info.osVersion !in WindowsVersions
    ensures r.Success? && r.value.Some? ==> r.value.value.os == info.os && r.value.value.architecture == info.processor
    ensures r == Success(None) <==> info.os != "linux" && info.os != "mac" && info.os != "win"
  {
    if info.os == "linux" then
      Success(Some(PlatformTriple("linux", "linux" + IntToString(info.bits), info.processor)))
    else if info.os == "mac" then
      Success(Some(PlatformTriple("mac", "osx-" + Replace(info.osVersion, ".", "-"), info.processor)))
    else if info.os == "win" then
      var bits := if info.osVersion != "5.1" then "-" + IntToString(info.bits) else "";
      if info.osVersion !in WindowsVersions then Failure(KeyError(info.osVersion))
      else Success(Some(PlatformTriple("win", "windows" + WindowsVersions[info.osVersion] + bits, info.processor)))
    else Success(None)
  }

  /** The platform names: `linux` and the word size, `osx-` and the version
      with dashes, and the Windows release with the word size except on XP. */
  lemma PlatformNames(bits: int, processor: string, version: string)
    ensures TreeherderPlatform(HostInfo("linux", bits, processor, version)).value.value.platform ==
              "linux" + IntToString(bits)
    ensures var p := TreeherderPlatform(HostInfo("mac", bits, processor, version)).value.value.platform;
              StartsWith(p, "osx-") && '.' !in p
    ensures TreeherderPlatform(HostInfo("win", bits, processor, "5.1")).value.value.platform == "windowsxp"
    ensures TreeherderPlatform(HostInfo("win", bits, processor, "6.1")).value.value.platform ==
              "windows7-" + IntToString(bits)
    ensures TreeherderPlatform(HostInfo("win", bits, processor, "6.2")).value.value.platform ==
              "windows8-" + IntToString(bits)
  {
    var dashed := Replace(version, ".", "-");
    ReplaceCharRemoves(version, '.', "-");
    var p := "osx-" + dashed;
    assert p[..4] == "osx-";
    assert forall k :: 4 <= k < |p| ==> p[k] == dashed[k - 4];
  }

  /** A detail attached to a job: `{title, value, content_type, url}`. */
  datatype Detail = Detail(title: string, value: string, contentType: string, url: string)

  function DetailValue(d: Detail): Value {
    Obj(map["title" := Str(d.title), "value" := Str(d.value), "content_type" := Str(d.contentType),
            "url" := Str(d.url)])
  }

  /** An artifact: name, type and blob. */
  datatype Artifact = Artifact(name: string, kind: string, blob: Value)

  /** The fields of a `FirefoxUITestJob` the model follows, with its
      pending `_details`. */
  datatype UITestJob = UITestJob(
    guid: string, tier: int, state: string, result: Option<string>, productName: string,
    machine: string, platform: PlatformTriple, optionCollection: map<string, bool>,
    groupName: string, groupSymbol: string, jobName: string, jobSymbol: string,
    startTimestamp: int, endTimestamp: int, artifacts: seq<Artifact>, details: seq<Detail>)

  /** `FirefoxUITestJob(product_name, locale, group_name, group_symbol)`.
      Without a platform triple `add_machine_info(*None)` raises `TypeError`. */
  function NewUITestJob(productName: string, locale: string, groupName: string, groupSymbol: string,
                        info: HostInfo, guid: string, machine: string, now: int): (r: Result<UITestJob>)
    ensures r.Success? <==> TreeherderPlatform(info).Success? && TreeherderPlatform(info).value.Some?
    ensures r.Success? ==>
              && r.value.state == "running" && r.value.tier == 3 && r.value.result.None?
              && r.value.jobName == groupName + " (" + locale + ")" && r.value.jobSymbol == locale
              && r.value.groupName == groupName && r.value.groupSymbol == groupSymbol
              && r.value.startTimestamp == now && r.value.endTimestamp == 0
              && r.value.artifacts == [] && r.value.details == []
              && r.value.platform == TreeherderPlatform(info).value.value
  {
    var platform :- TreeherderPlatform(info);
    if platform.None? then Failure(TypeError("add_machine_info() argument after * must be a sequence"))
    else
      Success(UITestJob(guid, 3, "running", None, productName, machine, platform.value, map["opt" := true],
                        groupName, groupSymbol, groupName + " (" + locale + ")", locale, now, 0, [], []))
  }

  /** `add_details`: one more detail, nothing else changes. */
  function AddDetails(job: UITestJob, title: string, value: string, contentType: string, url: string): (j: UITestJob)
    ensures j.details == job.details + [Detail(title, value, contentType, url)]
    ensures j.(details := job.details) == job
  {
    job.(details := job.details + [Detail(title, value, contentType, url)])
  }

  /** `completed(result)`: the job is completed with its result and end
      time, and its details become a `Job Info` artifact when there are any. */
  function Completed(job: UITestJob, result: string, now: int): (j: UITestJob)
    ensures j.state == "completed" && j.result == Some(result) && j.endTimestamp == now
    ensures job.details == [] ==> j.artifacts == job.artifacts
    ensures job.details != [] ==>
              j.artifacts == job.artifacts + [Artifact("Job Info", "json", Obj(map["job_details" := List(DetailValues(job.details))]))]
    ensures j.(state := job.state, result := job.result, endTimestamp := job.endTimestamp, artifacts := job.artifacts) == job
  {
    var done := job.(state := "completed", result := Some(result), endTimestamp := now);
    if job.details == [] then done
    else done.(artifacts := job.artifacts + [Artifact("Job Info", "json", Obj(map["job_details" := List(DetailValues(job.details))]))])
  }

  function DetailValues(ds: seq<Detail>): (vs: seq<Value>)
    ensures |vs| == |ds| && forall k :: 0 <= k < |ds| ==> vs[k] == DetailValue(ds[k])
  {
    seq(|ds|, k requires 0 <= k < |ds| => DetailValue(ds[k]))
  }

  /** Details added one after another. */
  function AddAllDetails(job: UITestJob, ds: seq<Detail>): UITestJob
    decreases |ds|
  {
    if |ds| == 0 then job
    else AddAllDetails(AddDetails(job, ds[0].title, ds[0].value, ds[0].contentType, ds[0].url), ds[1..])
  }

  /** Adding details keeps them in order and touches nothing else. */
  lemma {:induction false} AddAllDetailsAppends(job: UITestJob, ds: seq<Detail>)
    ensures AddAllDetails(job, ds).details == job.details + ds
    ensures AddAllDetails(job, ds).(details := job.details) == job
    decreases |ds|
  {
    if |ds| > 0 {
      var next := AddDetails(job, ds[0].title, ds[0].value, ds[0].contentType, ds[0].url);
      AddAllDetailsAppends(next, ds[1..]);
      assert next.details + ds[1..] == job.details + ds;
    }
  }

  /** A job created, given some details and completed carries exactly one
      `Job Info` artifact when some detail was added, and none otherwise. */
  lemma JobLifecycle(productName: string, locale: string, groupName: string, groupSymbol: string,
                     info: HostInfo, guid: string, machine: string, start: int, ds: seq<Detail>,
                     result: string, end: int)
    requires NewUITestJob(productName, locale, groupName, groupSymbol, info, guid, machine, start).Success?
    ensures var job := NewUITestJob(productName, locale, groupName, groupSymbol, info, guid, machine, start).value;
      var done := Completed(AddAllDetails(job, ds), result, end);
      && done.state == "completed" && done.result == Some(result)
      && done.jobName == groupName + " (" + locale + ")"
      && (ds == [] ==> done.artifacts == [])
      && (ds != [] ==> |done.artifacts| == 1 && done.artifacts[0].name == "Job Info"
                       && done.artifacts[0].blob == Obj(map["job_details" := List(DetailValues(ds))]))
  {
    var job := NewUITestJob(productName, locale, groupName, groupSymbol, info, guid, machine, start).value;
    AddAllDetailsAppends(job, ds);
    assert AddAllDetails(job, ds).details == ds;
  }

  /** `.*CRASH: ` matched at the start of a line: `CRASH: ` occurs with no
      newline before it, since `.` does not match a newline. */
  predicate CrashMatch(line: string)
    decreases |line|
  {
    StartsWith(line, "CRASH: ") || (|line| > 0 && line[0] != '\n' && CrashMatch(line[1..]))
  }

  /** `failure_re.match(line)`. */
  predicate IsFailureLine(line: string) {
    || StartsWith(line, "TEST-UNEXPECTED-FAIL")
    || StartsWith(line, "TEST-UNEXPECTED-ERROR")
    || CrashMatch(line)
    || StartsWith(line, "Crash reason: ")
  }

  /** A line of `readlines()`: a newline, if any, only at its end. */
  predicate IsLine(line: string) {
    forall k :: 0 <= k < |line| - 1 ==> line[k] != '\n'
  }

  /** On a line, the crash rule is a plain substring test. */
  lemma {:induction false} CrashMatchIsContains(line: string)
    requires IsLine(line)
    ensures CrashMatch(line) <==> Contains(line, "CRASH: ")
    decreases |line|
  {
    if |line| > 0 && !StartsWith(line, "CRASH: ") {
      CrashMatchIsContains(line[1..]);
      if line[0] == '\n' {
        assert |line| == 1;
        assert !Contains(line[1..], "CRASH: ");
      }
    }
  }

  /** A failure line is one that starts with an unexpected-test or
      crash-reason marker, or contains `CRASH: ` anywhere. */
  lemma FailureLineRule(line: string)
    requires IsLine(line)
    ensures IsFailureLine(line) <==>
              || StartsWith(line, "TEST-UNEXPECTED-FAIL") || StartsWith(line, "TEST-UNEXPECTED-ERROR")
              || StartsWith(line, "Crash reason: ") || Contains(line, "CRASH: ")
  {
    CrashMatchIsContains(line);
  }

  /** `f.readlines()`: the text cut after every newline. */
  function ReadLines(text: string): (lines: seq<string>)
    ensures forall k :: 0 <= k < |lines| ==> IsLine(lines[k]) && lines[k] != ""
    decreases |text|
  {
    if |text| == 0 then []
    else
      var i := IndexOf(text, '\n');
      if i < 0 then [text]
      else
        var line := text[..i + 1];
        assert forall k :: 0 <= k < |line| - 1 ==> line[k] == text[..i][k];
        [line] + ReadLines(text[i + 1..])
  }

  function Concat(lines: seq<string>): string
    decreases |lines|
  {
    if |lines| == 0 then "" else lines[0] + Concat(lines[1..])
  }

  /** The lines put back together are the text. */
  lemma {:induction false} ReadLinesConcat(text: string)
    ensures Concat(ReadLines(text)) == text
    decreases |text|
  {
    if |text| > 0 {
      var i := IndexOf(text, '\n');
      if i >= 0 {
        ReadLinesConcat(text[i + 1..]);
        var lines := ReadLines(text);
        assert lines[1..] == ReadLines(text[i + 1..]);
        assert text == text[..i + 1] + text[i + 1..];
      }
    }
  }

  /** `parse`: the failure lines, in file order. */
  function Failures(lines: seq<string>): (failures: seq<string>)
    ensures |failures| <= |lines|
    ensures forall k :: 0 <= k < |failures| ==> failures[k] in lines
    decreases |lines|
  {
    if |lines| == 0 then []
    else (if IsFailureLine(lines[0]) then [lines[0]] else []) + Failures(lines[1..])
  }

  /** The failures of a log are those of its parts, in order: the failure
      list is the matching lines and nothing else. */
  lemma {:induction false} FailuresAppend(a: seq<string>, b: seq<string>)
    ensures Failures(a + b) == Failures(a) + Failures(b)
    decreases |a|
  {
    if |a| == 0 {
      assert a + b == b;
    } else {
      assert (a + b)[1..] == a[1..] + b;
      FailuresAppend(a[1..], b);
    }
  }

  /** Every reported line matched, and every matching line is reported. */
  lemma {:induction false} FailuresAreMatches(lines: seq<string>)
    ensures forall k :: 0 <= k < |Failures(lines)| ==> IsFailureLine(Failures(lines)[k])
    ensures forall k :: 0 <= k < |lines| && IsFailureLine(lines[k]) ==> lines[k] in Failures(lines)
    decreases |lines|
  {
    if |lines| > 0 {
      FailuresAreMatches(lines[1..]);
      forall k | 0 < k < |lines| && IsFailureLine(lines[k]) ensures lines[k] in Failures(lines) {
        assert lines[k] == lines[1..][k - 1];
      }
    }
  }

  /** `success`: no line matched. */
  function Succeeded(lines: seq<string>): (ok: bool)
    ensures ok <==> forall k :: 0 <= k < |lines| ==> !IsFailureLine(lines[k])
  {
    NoFailuresIffNoFailureLine(lines);
    Failures(lines) == []
  }

  lemma {:induction false} NoFailuresIffNoFailureLine(lines: seq<string>)
    ensures Failures(lines) == [] <==> forall k :: 0 <= k < |lines| ==> !IsFailureLine(lines[k])
    decreases |lines|
  {
    if |lines| > 0 {
      NoFailuresIffNoFailureLine(lines[1..]);
      assert forall k :: 1 <= k < |lines| ==> lines[k] == lines[1..][k - 1];
    }
  }

  /** `failures_as_json`. */
  function FailuresAsJson(failures: seq<string>): (v: Value)
    ensures v.Obj? && v.fields.Keys == {"all_errors", "errors_truncated"}
    ensures v.fields["errors_truncated"] == Bool(true)
    ensures v.fields["all_errors"].List? && |v.fields["all_errors"].items| == |failures|
    ensures forall k :: 0 <= k < |failures| ==>
              v.fields["all_errors"].items[k] == Obj(map["line" := Str(failures[k]), "linenumber" := Null])
  {
    Obj(map["all_errors" := List(seq(|failures|, k requires 0 <= k < |failures| =>
                                       Obj(map["line" := Str(failures[k]), "linenumber" := Null]))),
            "errors_truncated" := Bool(true)])
  }

  /** The lines a failure summary reports, read back from it. */
  function SummaryLines(summary: Value): Option<seq<string>> {
    if summary.Obj? && "all_errors" in summary.fields && summary.fields["all_errors"].List? then
      var items := summary.fields["all_errors"].items;
      if forall k :: 0 <= k < |items| ==> items[k].Obj? && "line" in items[k].fields && items[k].fields["line"].Str? then
        Some(seq(|items|, k requires 0 <= k < |items| => items[k].fields["line"].s))
      else None
    else None
  }

  /** The summary gives back the failure lines, in order. */
  lemma SummaryRoundTrip(failures: seq<string>)
    ensures SummaryLines(FailuresAsJson(failures)) == Some(failures)
  {
    var lines := SummaryLines(FailuresAsJson(failures));
    assert lines.Some?;
    assert lines.value == failures;
  }
}
