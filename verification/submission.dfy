/** The report submission of a test run
    (jenkins-master/jobs/scripts/workspace/submission.py): the Treeherder
    job is created when the run starts and completed with the recorded exit
    code when it ends; the logs go to S3 first. Treeherder, S3, the clock,
    the job GUID, the host name, `mozinfo` and the files the script reads
    are inputs or oracles. thclient keeps a job's fields under
    `data['job']`; the model keeps them in one map. */
module Submission {
  import opened Wrappers
  import opened Strings
  import opened Values
  import opened BuildBot
  import opened TreeherderReport
  import RunTests

  /** A piece of a `str.format` template. */
  datatype Piece = Lit(text: string) | Field(name: string)

  type Template = seq<Piece>

  /** One piece of a template filled in: a `KeyError` for a missing field. */
  function PieceText(p: Piece, kwargs: Props): (r: Result<string>)
    ensures r.Success? <==> (p.Field? ==> p.name in kwargs)
  {
    match p
    case Lit(s) => Success(s)
    case Field(n) => if n in kwargs then Success(ToStr(kwargs[n])) else Failure(KeyError(n))
  }

  /** `template.format(**kwargs)`: a `KeyError` for the first missing field. */
  function Format(t: Template, kwargs: Props): (r: Result<string>)
    ensures r.Success? <==> forall k :: 0 <= k < |t| && t[k].Field? ==> t[k].name in kwargs
    decreases |t|
  {
    if |t| == 0 then Success("")
    else
      var head :- PieceText(t[0], kwargs);
      var rest :- Format(t[1..], kwargs);
      Success(head + rest)
  }

  /** Formatting a template part by part. */
  lemma {:induction false} FormatAppend(a: Template, b: Template, kwargs: Props)
    requires Format(a, kwargs).Success? && Format(b, kwargs).Success?
    ensures Format(a + b, kwargs) == Success(Format(a, kwargs).value + Format(b, kwargs).value)
    decreases |a|
  {
    if |a| == 0 {
      assert a + b == b;
      assert "" + Format(b, kwargs).value == Format(b, kwargs).value;
    } else {
      assert (a + b)[0] == a[0] && (a + b)[1..] == a[1..] + b;
      FormatAppend(a[1..], b, kwargs);
      var h := PieceText(a[0], kwargs).value;
      var ra := Format(a[1..], kwargs).value;
      var rb := Format(b, kwargs).value;
      assert h + (ra + rb) == (h + ra) + rb;
    }
  }

  /** A one-piece template is that piece filled in. */
  lemma FormatOne(p: Piece, kwargs: Props)
    ensures Format([p], kwargs) == PieceText(p, kwargs)
  {
    assert [p][1..] == [];
    if PieceText(p, kwargs).Success? {
      assert PieceText(p, kwargs).value + "" == PieceText(p, kwargs).value;
    }
  }

  /** The `treeherder` part of a test type's configuration. */
  datatype TreeherderSettings = TreeherderSettings(
    groupName: Template, groupSymbol: Template, jobName: Template, jobSymbol: Template,
    tier: int, artifacts: seq<(string, string)>, logReference: string)

  /** The logs of a test run, by name, under the script's folder `here`. */
  function LogFiles(here: string, t: RunTests.TestType): seq<(string, string)> {
    var build := PathJoin(here, "build");
    [("log_info.log", PathJoin(PathJoin(PathJoin(build, "upload"), "logs"), "log_info.log")),
     ("report.html", PathJoin(PathJoin(PathJoin(build, "upload"), "reports"), "report.html"))]
    + (if t == RunTests.Update then [("http.log", PathJoin(build, "http.log"))] else [])
  }

  const FunctionalJobName: Template := [Lit("Firefox UI Functional Tests ("), Field("locale"), Lit(")")]
  const FunctionalJobSymbol: Template := [Field("locale")]
  const UpdateGroupName: Template := [Lit("Firefox UI Update Tests - "), Field("update_channel")]
  const UpdateGroupSymbol: Template := [Lit("Fxup-"), Field("update_channel")]
  const UpdateJobName: Template :=
    [Lit("Firefox UI Update Tests - "), Field("update_channel"), Lit(" "), Field("locale"), Lit("-"), Field("update_number")]
  const UpdateJobSymbol: Template := [Field("locale"), Lit("-"), Field("update_number")]

  /** `config['test_types'][type]['treeherder']`. */
  function SettingsOf(here: string, t: RunTests.TestType): TreeherderSettings {
    match t
    case Functional =>
      TreeherderSettings([Lit("Firefox UI Functional Tests")], [Lit("Fxfn")], FunctionalJobName, FunctionalJobSymbol,
                         3, LogFiles(here, t), "log_info.log")
    case Update =>
      TreeherderSettings(UpdateGroupName, UpdateGroupSymbol, UpdateJobName, UpdateJobSymbol,
                         3, LogFiles(here, t), "log_info.log")
  }

  /** Functional job names need the locale, update job names also the channel
      and the update number; the job symbol is the locale, followed by the
      update number for update runs. */
  lemma JobNames(kwargs: Props)
    ensures Format(FunctionalJobName, kwargs).Success? <==> "locale" in kwargs
    ensures Format(UpdateJobName, kwargs).Success? <==>
              "locale" in kwargs && "update_channel" in kwargs && "update_number" in kwargs
    ensures "locale" in kwargs ==> var locale := ToStr(kwargs["locale"]);
      && Format(FunctionalJobSymbol, kwargs) == Success(locale)
      && Format(FunctionalJobName, kwargs) == Success("Firefox UI Functional Tests (" + locale + ")")
    ensures "locale" in kwargs && "update_number" in kwargs ==>
              Format(UpdateJobSymbol, kwargs) == Success(ToStr(kwargs["locale"]) + "-" + ToStr(kwargs["update_number"]))
  {
    assert FunctionalJobName[1].Field? && UpdateJobName[1].Field? && UpdateJobName[3].Field? && UpdateJobName[5].Field?;
    if "locale" in kwargs {
      var locale := ToStr(kwargs["locale"]);
      FormatOne(Field("locale"), kwargs);
      FormatOne(Lit("Firefox UI Functional Tests ("), kwargs);
      FormatOne(Lit(")"), kwargs);
      FormatAppend([Lit("Firefox UI Functional Tests (")], [Field("locale")], kwargs);
      assert [Lit("Firefox UI Functional Tests (")] + [Field("locale")] == FunctionalJobName[..2];
      FormatAppend(FunctionalJobName[..2], [Lit(")")], kwargs);
      assert FunctionalJobName[..2] + [Lit(")")] == FunctionalJobName;
      if "update_number" in kwargs {
        FormatOne(Lit("-"), kwargs);
        FormatOne(Field("update_number"), kwargs);
        FormatAppend([Field("locale")], [Lit("-")], kwargs);
        assert [Field("locale")] + [Lit("-")] == UpdateJobSymbol[..2];
        FormatAppend(UpdateJobSymbol[..2], [Field("update_number")], kwargs);
        assert UpdateJobSymbol[..2] + [Field("update_number")] == UpdateJobSymbol;
      }
    }
  }

  /** A job's fields. */
  type JobData = Props

  /** The platform triple as thclient stores it. */
  function TripleValue(p: PlatformTriple): Value {
    List([Str(p.os), Str(p.platform), Str(p.architecture)])
  }

  /** `list.append` on one of the job's list fields. */
  function Append(job: JobData, key: string, item: Value): (j: JobData)
    ensures key in j && j[key].List? && |j[key].items| > 0 && j[key].items[|j[key].items| - 1] == item
    ensures forall k :: k in job && k != key ==> k in j && j[k] == job[k]
  {
    var before := if key in job && job[key].List? then job[key].items else [];
    job[key := List(before + [item])]
  }

  /** What a submission knows: where it reports and the pending details. */
  datatype Submitter = Submitter(repository: string, revision: string, settings: TreeherderSettings,
                                 details: seq<Detail>)

  /** The outside world of `create_job`. */
  datatype JobSources = JobSources(revisionHash: Result<string>, info: HostInfo, guid: string,
                                   machine: string, now: int)

  /** The fields `create_job` gives a fresh job. */
  datatype JobFields = JobFields(guid: string, tier: int, project: string, revisionHash: string, machine: string,
                                 platform: PlatformTriple, groupName: string, groupSymbol: string,
                                 jobName: string, jobSymbol: string, start: int)

  /** The fields as job data. */
  function JobDataOf(f: JobFields): JobData {
    map[
      "job_guid" := Str(f.guid),
      "tier" := Int(f.tier),
      "product_name" := Str("firefox"),
      "project" := Str(f.project),
      "revision_hash" := Str(f.revisionHash),
      "machine" := Str(f.machine),
      "machine_platform" := TripleValue(f.platform),
      "build_platform" := TripleValue(f.platform),
      "option_collection" := Obj(map["opt" := Bool(true)]),
      "group_name" := Str(f.groupName),
      "group_symbol" := Str(f.groupSymbol),
      "job_name" := Str(f.jobName),
      "job_symbol" := Str(f.jobSymbol),
      "start_timestamp" := Int(f.start),
      "end_timestamp" := Int(0)]
  }

  /** A text field of job data. */
  function TextAt(job: JobData, key: string): Option<string> {
    if key in job && job[key].Str? then Some(job[key].s) else None
  }

  /** A number field of job data. */
  function NumberAt(job: JobData, key: string): Option<int> {
    if key in job && job[key].Int? then Some(job[key].i) else None
  }

  /** A platform triple of job data. */
  function TripleAt(job: JobData, key: string): Option<PlatformTriple> {
    if key in job && job[key].List? && |job[key].items| == 3
       && job[key].items[0].Str? && job[key].items[1].Str? && job[key].items[2].Str?
    then Some(PlatformTriple(job[key].items[0].s, job[key].items[1].s, job[key].items[2].s))
    else None
  }

  /** The fields as a later step reads them back from job data. */
  function FieldsOf(job: JobData): Option<JobFields> {
    var guid := TextAt(job, "job_guid");
    var tier := NumberAt(job, "tier");
    var project := TextAt(job, "project");
    var hash := TextAt(job, "revision_hash");
    var machine := TextAt(job, "machine");
    var platform := TripleAt(job, "machine_platform");
    var groupName := TextAt(job, "group_name");
    var groupSymbol := TextAt(job, "group_symbol");
    var jobName := TextAt(job, "job_name");
    var jobSymbol := TextAt(job, "job_symbol");
    var start := NumberAt(job, "start_timestamp");
    if guid.Some? && tier.Some? && project.Some? && hash.Some? && machine.Some? && platform.Some?
       && groupName.Some? && groupSymbol.Some? && jobName.Some? && jobSymbol.Some? && start.Some?
    then Some(JobFields(guid.value, tier.value, project.value, hash.value, machine.value, platform.value,
                        groupName.value, groupSymbol.value, jobName.value, jobSymbol.value, start.value))
    else None
  }

  /** The identifying fields are read back as written. */
  lemma IdentityFieldsRoundTrip(f: JobFields)
    ensures var job := JobDataOf(f);
      && TextAt(job, "job_guid") == Some(f.guid) && NumberAt(job, "tier") == Some(f.tier)
      && TextAt(job, "project") == Some(f.project) && TextAt(job, "revision_hash") == Some(f.revisionHash)
      && TextAt(job, "machine") == Some(f.machine) && TripleAt(job, "machine_platform") == Some(f.platform)
  {
  }

  /** The names and the start are read back as written. */
  lemma NameFieldsRoundTrip(f: JobFields)
    ensures var job := JobDataOf(f);
      && TextAt(job, "group_name") == Some(f.groupName) && TextAt(job, "group_symbol") == Some(f.groupSymbol)
      && TextAt(job, "job_name") == Some(f.jobName) && TextAt(job, "job_symbol") == Some(f.jobSymbol)
      && NumberAt(job, "start_timestamp") == Some(f.start)
  {
  }

  /** Job data gives back the fields it was made from. */
  lemma FieldsRoundTrip(f: JobFields)
    ensures FieldsOf(JobDataOf(f)) == Some(f)
  {
    IdentityFieldsRoundTrip(f);
    NameFieldsRoundTrip(f);
  }

  /** The fields of a fresh job, set in the order of the source, so the
      first failure is the one reported: the revision hash, the platform,
      then the four names. */
  function FreshFields(sub: Submitter, kwargs: Props, src: JobSources): (r: Result<JobFields>)
    ensures r.Success? <==>
              && src.revisionHash.Success?
              && TreeherderPlatform(src.info).Success? && TreeherderPlatform(src.info).value.Some?
              && Format(sub.settings.groupName, kwargs).Success? && Format(sub.settings.groupSymbol, kwargs).Success?
              && Format(sub.settings.jobName, kwargs).Success? && Format(sub.settings.jobSymbol, kwargs).Success?
    ensures src.revisionHash.Failure? ==> r == Failure(src.revisionHash.error)
    ensures r.Success? ==>
              && r.value.guid == src.guid && r.value.tier == sub.settings.tier && r.value.project == sub.repository
              && r.value.revisionHash == src.revisionHash.value && r.value.machine == src.machine
              && Some(r.value.platform) == TreeherderPlatform(src.info).value
              && r.value.jobName == Format(sub.settings.jobName, kwargs).value
              && r.value.jobSymbol == Format(sub.settings.jobSymbol, kwargs).value
              && r.value.start == src.now
  {
    var hash :- src.revisionHash;
    var platform :- TreeherderPlatform(src.info);
    if platform.None? then Failure(TypeError("add_machine_info() argument after * must be a sequence"))
    else
      var groupName :- Format(sub.settings.groupName, kwargs);
      var groupSymbol :- Format(sub.settings.groupSymbol, kwargs);
      var jobName :- Format(sub.settings.jobName, kwargs);
      var jobSymbol :- Format(sub.settings.jobSymbol, kwargs);
      Success(JobFields(src.guid, sub.settings.tier, sub.repository, hash, src.machine, platform.value,
                        groupName, groupSymbol, jobName, jobSymbol, src.now))
  }

  /** `create_job(data, **kwargs)`: previous data is kept as it is; without
      it the job holds the fresh fields. */
  function CreateJob(sub: Submitter, data: Value, kwargs: Props, src: JobSources): (r: Result<JobData>)
    ensures Truthy(data) && data.Obj? ==> r == Success(data.fields)
    ensures !Truthy(data) ==> (r.Success? <==> FreshFields(sub, kwargs, src).Success?)
    ensures !Truthy(data) && r.Success? ==> FieldsOf(r.value) == Some(FreshFields(sub, kwargs, src).value)
  {
    if Truthy(data) then
      if data.Obj? then Success(data.fields) else Failure(TypeError("job data"))
    else
      var fields :- FreshFields(sub, kwargs, src);
      FieldsRoundTrip(fields);
      Success(JobDataOf(fields))
  }

  /** The details as the `Job Info` artifact's blob. */
  function JobInfo(details: seq<Detail>): Value {
    Obj(map["name" := Str("Job Info"), "type" := Str("json"),
            "blob" := Obj(map["job_details" := List(DetailValues(details))])])
  }

  /** A submission attempt: the submitter and job after it, and what the
      post raised. */
  datatype Submitted = Submitted(sub: Submitter, job: JobData, error: Option<Error>)

  /** `client.post_collection(repository, collection)`. */
  type Post = (string, JobData) -> Check

  /** `submit(job)`: stamped, given the pending details as an artifact when
      there are any, and posted; the details are cleared before the post. */
  function Submit(sub: Submitter, job: JobData, now: int, post: Post): (s: Submitted)
    ensures s.sub == sub.(details := [])
    ensures "submit_timestamp" in s.job && s.job["submit_timestamp"] == Int(now)
    ensures sub.details == [] ==> s.job == job["submit_timestamp" := Int(now)]
    ensures sub.details != [] ==> s.job == Append(job["submit_timestamp" := Int(now)], "artifacts", JobInfo(sub.details))
    ensures s.error.None? <==> post(sub.repository, s.job).Pass?
  {
    var stamped := job["submit_timestamp" := Int(now)];
    var posted := if sub.details != [] then Append(stamped, "artifacts", JobInfo(sub.details)) else stamped;
    var outcome := post(sub.repository, posted);
    Submitted(sub.(details := []), posted, if outcome.Pass? then None else Some(outcome.error))
  }

  /** The link to the Jenkins build. */
  function JenkinsLink(url: string): Detail {
    Detail("Inspect Jenkins Build (VPN required)", url, "link", url)
  }

  /** `submit_running_job`: state `running`, with a link to the Jenkins
      build when `BUILD_URL` is set. */
  function SubmitRunningJob(sub: Submitter, job: JobData, env: map<string, string>, now: int, post: Post): (s: Submitted)
    ensures "state" in s.job && s.job["state"] == Str("running")
    ensures s.sub.details == []
    ensures var link := "BUILD_URL" in env && env["BUILD_URL"] != "";
      && (link ==> s.job == Append(job["state" := Str("running")]["submit_timestamp" := Int(now)], "artifacts",
                                   JobInfo(sub.details + [JenkinsLink(env["BUILD_URL"])])))
      && (!link ==> s == Submit(sub, job["state" := Str("running")], now, post))
  {
    var running := job["state" := Str("running")];
    var withLink :=
      if "BUILD_URL" in env && env["BUILD_URL"] != "" then sub.(details := sub.details + [JenkinsLink(env["BUILD_URL"])])
      else sub;
    Submit(withLink, running, now, post)
  }

  /** A log uploaded to S3. */
  datatype UploadedLog = UploadedLog(name: string, path: string, url: string)

  /** `uploaded_logs.get(name)`. */
  function FindUploaded(uploaded: seq<UploadedLog>, name: string): Option<UploadedLog>
    decreases |uploaded|
  {
    if |uploaded| == 0 then None
    else if uploaded[0].name == name then Some(uploaded[0])
    else FindUploaded(uploaded[1..], name)
  }

  /** One link detail per uploaded log, in order. */
  function LogDetails(uploaded: seq<UploadedLog>): (ds: seq<Detail>)
    ensures |ds| == |uploaded|
    ensures forall k :: 0 <= k < |uploaded| ==>
              ds[k] == Detail(uploaded[k].name, uploaded[k].url, "link", uploaded[k].url)
  {
    seq(|uploaded|, k requires 0 <= k < |uploaded| =>
      Detail(uploaded[k].name, uploaded[k].url, "link", uploaded[k].url))
  }

  /** `submit_completed_job`: state `completed` and the result named by the
      exit code, a log reference to the configured log when it was uploaded,
      and a link per uploaded log. An exit code that is no index of
      `BuildExitCode` raises `IndexError` before anything is posted. */
  function SubmitCompletedJob(sub: Submitter, job: JobData, retval: int, uploaded: seq<UploadedLog>,
                              now: int, post: Post): (r: Result<Submitted>)
    ensures r.Success? <==> ValidIndex(retval)
    ensures r.Success? ==> var j := r.value.job;
      && "state" in j && j["state"] == Str("completed")
      && "result" in j && j["result"] == Str(NameAt(retval).value)
      && "end_timestamp" in j && j["end_timestamp"] == Int(now)
      && r.value.sub.details == []
    ensures r.Success? ==>
              var completed := job["state" := Str("completed")]["result" := Str(NameAt(retval).value)]
                                  ["end_timestamp" := Int(now)];
              var referenced := match FindUploaded(uploaded, sub.settings.logReference)
                case Some(log) => Append(completed, "log_references", Obj(map["name" := Str("buildbot_text"), "url" := Str(log.url)]))
                case None => completed;
              r.value == Submit(sub.(details := sub.details + LogDetails(uploaded)), referenced, now, post)
  {
    var name :- NameAt(retval);
    var completed := job["state" := Str("completed")]["result" := Str(name)]["end_timestamp" := Int(now)];
    var referenced :=
      match FindUploaded(uploaded, sub.settings.logReference)
      case Some(log) => Append(completed, "log_references", Obj(map["name" := Str("buildbot_text"), "url" := Str(log.url)]))
      case None => completed;
    Success(Submit(sub.(details := sub.details + LogDetails(uploaded)), referenced, now, post))
  }

  /** A completed job carries a `Job Info` artifact whenever a log was
      uploaded, listing one link per uploaded log after the earlier details. */
  lemma CompletedListsUploads(sub: Submitter, job: JobData, retval: int, uploaded: seq<UploadedLog>,
                              now: int, post: Post)
    requires ValidIndex(retval) && |uploaded| > 0
    ensures var s := SubmitCompletedJob(sub, job, retval, uploaded, now, post).value;
      && "artifacts" in s.job && s.job["artifacts"].List? && |s.job["artifacts"].items| > 0
      && s.job["artifacts"].items[|s.job["artifacts"].items| - 1] == JobInfo(sub.details + LogDetails(uploaded))
  {
  }

  /** The S3 client: `upload(path, remote_path)` gives the URL of the copy. */
  type Upload = (string, string) -> Result<string>

  /** `'{dir}/{filename}'.format(dir=str(guid), filename=os.path.basename(log))`. */
  function RemotePath(guid: Value, name: string): string {
    ToStr(guid) + "/" + BaseName(name)
  }

  /** One log: uploaded when its file exists; a failing upload is logged and
      skipped. */
  function UploadOne(guid: Value, log: (string, string), isFile: string -> bool, upload: Upload): (r: seq<UploadedLog>)
    ensures |r| <= 1
    ensures |r| == 1 <==> isFile(log.1) && upload(log.1, RemotePath(guid, log.0)).Success?
    ensures |r| == 1 ==> r[0] == UploadedLog(log.0, log.1, upload(log.1, RemotePath(guid, log.0)).value)
  {
    var (name, path) := log;
    if isFile(path) && upload(path, RemotePath(guid, name)).Success? then
      [UploadedLog(name, path, upload(path, RemotePath(guid, name)).value)]
    else []
  }

  /** The logs, one by one. */
  function UploadEach(guid: Value, logs: seq<(string, string)>, isFile: string -> bool, upload: Upload): (r: seq<UploadedLog>)
    ensures |r| <= |logs|
    decreases |logs|
  {
    if |logs| == 0 then []
    else UploadOne(guid, logs[0], isFile, upload) + UploadEach(guid, logs[1..], isFile, upload)
  }

  /** `upload_log_files`: nothing without a bucket. */
  function UploadLogFiles(guid: Value, logs: seq<(string, string)>, bucket: Option<string>,
                          isFile: string -> bool, upload: Upload): (r: seq<UploadedLog>)
    ensures !OptTruthy(bucket) ==> r == []
    ensures OptTruthy(bucket) ==> r == UploadEach(guid, logs, isFile, upload)
  {
    if !OptTruthy(bucket) then [] else UploadEach(guid, logs, isFile, upload)
  }

  /** `upload_log_files` as written: with a bucket name it builds
      `S3Bucket(bucket_name, access_key_id=..., access_secret_key=...)`, but
      the constructor takes the bucket name alone and reads the credentials
      from the environment, so the call raises `TypeError` before any log is
      looked at. Without a bucket name it returns no uploads, as intended. */
  function UploadLogFilesAsWritten(guid: Value, logs: seq<(string, string)>, bucket: Option<string>,
                                   isFile: string -> bool, upload: Upload): (r: Result<seq<UploadedLog>>)
    ensures r.Failure? <==> OptTruthy(bucket)
    ensures r.Failure? ==> r.error.TypeError?
    ensures r.Success? ==> r.value == UploadLogFiles(guid, logs, bucket, isFile, upload)
  {
    if !OptTruthy(bucket) then Success([])
    else Failure(TypeError("__init__() got an unexpected keyword argument 'access_key_id'"))
  }

  /** The logs are handled independently: the result for a list of logs is
      the results for its parts, so one failing log does not stop the next. */
  lemma {:induction false} UploadEachAppend(guid: Value, a: seq<(string, string)>, b: seq<(string, string)>,
                                            isFile: string -> bool, upload: Upload)
    ensures UploadEach(guid, a + b, isFile, upload) == UploadEach(guid, a, isFile, upload) + UploadEach(guid, b, isFile, upload)
    decreases |a|
  {
    if |a| == 0 {
      assert a + b == b;
    } else {
      assert (a + b)[0] == a[0] && (a + b)[1..] == a[1..] + b;
      UploadEachAppend(guid, a[1..], b, isFile, upload);
      var one := UploadOne(guid, a[0], isFile, upload);
      var ra := UploadEach(guid, a[1..], isFile, upload);
      var rb := UploadEach(guid, b, isFile, upload);
      assert one + (ra + rb) == (one + ra) + rb;
    }
  }

  /** Every uploaded log exists, went to `{guid}/{basename}`, and carries the
      URL the upload gave; every existing log whose upload succeeds is there. */
  lemma {:induction false} UploadEachSound(guid: Value, logs: seq<(string, string)>, isFile: string -> bool, upload: Upload)
    ensures forall u :: u in UploadEach(guid, logs, isFile, upload) ==>
              (u.name, u.path) in logs && isFile(u.path)
              && upload(u.path, RemotePath(guid, u.name)) == Success(u.url)
    ensures forall k :: 0 <= k < |logs| && isFile(logs[k].1) && upload(logs[k].1, RemotePath(guid, logs[k].0)).Success? ==>
              UploadedLog(logs[k].0, logs[k].1, upload(logs[k].1, RemotePath(guid, logs[k].0)).value)
                in UploadEach(guid, logs, isFile, upload)
    decreases |logs|
  {
    if |logs| > 0 {
      UploadEachSound(guid, logs[1..], isFile, upload);
      assert forall k :: 1 <= k < |logs| ==> logs[k] == logs[1..][k - 1];
    }
  }

  /** The uploaded copy sits in the job's folder under the log's base name. */
  lemma RemotePathInJobFolder(guid: Value, name: string)
    ensures StartsWith(RemotePath(guid, name), ToStr(guid) + "/")
    ensures EndsWith(RemotePath(guid, name), BaseName(name))
    ensures '/' !in RemotePath(guid, name)[|ToStr(guid)| + 1..]
  {
    var p := RemotePath(guid, name);
    assert p[..|ToStr(guid)| + 1] == ToStr(guid) + "/";
    assert p[|ToStr(guid)| + 1..] == BaseName(name);
    assert p[|p| - |BaseName(name)|..] == BaseName(name);
  }

  /** `int(f.read())` for `retval.json`, busted when the file cannot be read
      or holds no integer. */
  function ReadRetval(text: Result<string>): (retval: int)
    ensures text.Failure? ==> retval == CodeBusted
    ensures text.Success? && ParseInt(text.value).Some? ==> retval == ParseInt(text.value).value
    ensures text.Success? && ParseInt(text.value).None? ==> retval == CodeBusted
  {
    match text
    case Failure(_) => CodeBusted
    case Success(s) => ParseInt(s).GetOr(CodeBusted)
  }

  /** `json.loads(f.read())` for `job.json`, `{}` when that fails. */
  function ReadJobData(json: Result<Value>): (data: Value)
    ensures json.Failure? ==> data == Obj(map[])
    ensures json.Success? ==> data == json.value
  {
    match json
    case Failure(_) => Obj(map[])
    case Success(v) => v
  }

  /** The files and services of the completed state. */
  datatype CompletedInputs = CompletedInputs(
    retvalText: Result<string>, jobJson: Result<Value>, src: JobSources, bucket: Option<string>,
    isFile: string -> bool, upload: Upload, now: int, post: Post)

  /** The `completed` branch of the script: exit code and job data read,
      the job re-created from the data, the logs uploaded under the job's
      GUID and the job completed. The exit code's name is logged first, so an
      exit code outside `BuildExitCode` raises there. */
  function CompletedState(sub: Submitter, kwargs: Props, input: CompletedInputs): (r: Result<Submitted>)
    ensures !ValidIndex(ReadRetval(input.retvalText)) ==> r == Failure(IndexError(ReadRetval(input.retvalText)))
    ensures var job := CreateJob(sub, ReadJobData(input.jobJson), kwargs, input.src);
      r.Success? <==> ValidIndex(ReadRetval(input.retvalText)) && job.Success? && At(job.value, "job_guid").Success?
  {
    var retval := ReadRetval(input.retvalText);
    var _ :- NameAt(retval);
    var job :- CreateJob(sub, ReadJobData(input.jobJson), kwargs, input.src);
    var guid :- At(job, "job_guid");
    var uploaded := UploadLogFiles(guid, sub.settings.artifacts, input.bucket, input.isFile, input.upload);
    SubmitCompletedJob(sub, job, retval, uploaded, input.now, input.post)
  }

  /** The `completed` branch as written: with a bucket configured the upload
      raises, so the job is never completed; without one it is the branch
      above. */
  function CompletedStateAsWritten(sub: Submitter, kwargs: Props, input: CompletedInputs): (r: Result<Submitted>)
    ensures OptTruthy(input.bucket) ==> r.Failure?
    ensures !OptTruthy(input.bucket) ==> r == CompletedState(sub, kwargs, input)
  {
    var retval := ReadRetval(input.retvalText);
    var _ :- NameAt(retval);
    var job :- CreateJob(sub, ReadJobData(input.jobJson), kwargs, input.src);
    var guid :- At(job, "job_guid");
    var uploaded :- UploadLogFilesAsWritten(guid, sub.settings.artifacts, input.bucket, input.isFile, input.upload);
    SubmitCompletedJob(sub, job, retval, uploaded, input.now, input.post)
  }

  /** Whatever the test runner did, the exit code it left is read back as
      itself and names a result, so the `completed` branch never stops at
      the exit code; a missing file reads as busted. */
  lemma RetvalHandOver(parsed: Option<RunTests.Options>, python: string, here: string, env: RunTests.Env,
                       process: RunTests.Process)
    ensures var m := RunTests.Main(parsed, python, here, env, process);
      && ParseInt(m.retval).Some?
      && ReadRetval(Success(m.retval)) == ParseInt(m.retval).value
      && NameAt(ReadRetval(Success(m.retval))).Success?
    ensures ReadRetval(Failure(External("IOError"))) == CodeBusted
  {
    var m := RunTests.Main(parsed, python, here, env, process);
    RunTests.MainRecordsExitCode(parsed, python, here, env, process);
    ReadRecordedRetval(m.retval);
  }

  /** A recorded exit code that names a result is read back as itself. */
  lemma ReadRecordedRetval(text: string)
    requires ParseInt(text).Some? && ValidIndex(ParseInt(text).value)
    ensures ReadRetval(Success(text)) == ParseInt(text).value
    ensures NameAt(ReadRetval(Success(text))).Success?
  {
  }

  /** The `completed` branch updates the job the `running` branch created:
      when `job.json` gives back the running job's data, it is kept as it
      is, GUID and names included; when it cannot be read, a fresh job with
      a new GUID is created instead. */
  lemma CompletedKeepsJob(sub: Submitter, kwargs: Props, running: JobData, src: JobSources)
    requires running != map[]
    ensures CreateJob(sub, ReadJobData(Success(Obj(running))), kwargs, src) == Success(running)
    ensures var created := CreateJob(sub, ReadJobData(Failure(External("IOError"))), kwargs, src);
      created.Success? ==> FieldsOf(created.value).Some? && FieldsOf(created.value).value.guid == src.guid
  {
  }

  /** The `running` branch: a fresh job, saved to `job.json`, then submitted
      as running. */
  function RunningState(sub: Submitter, kwargs: Props, src: JobSources, env: map<string, string>, post: Post)
    : (r: Result<(JobData, Submitted)>)
    ensures r.Success? <==> CreateJob(sub, Null, kwargs, src).Success?
    ensures r.Success? ==> r.value.0 == CreateJob(sub, Null, kwargs, src).value
    ensures r.Success? ==> "state" in r.value.1.job && r.value.1.job["state"] == Str("running")
  {
    var job :- CreateJob(sub, Null, kwargs, src);
    Success((job, SubmitRunningJob(sub, job, env, src.now, post)))
  }
}
