# mozmill-ci in Dafny

A model of the dispatch core of mozmill-ci. mozmill-ci is Mozilla's continuous
integration glue that listens to build notifications on Mozilla Pulse and turns
them into Firefox UI test runs in Jenkins (or Taskcluster). The model follows
the code through a build's whole life:

- **Queues** (`lib/queues.py`). The normalized build queue and the funsize
  update queue filter notifications against the per-tree lists of the Pulse
  configuration, in the order tree, product, platform, tags, locale. Admitted
  ones become a property record. Every message is acknowledged once, whatever
  the callback did.
- **Automation** (`lib/automation.py`). `process_build`:
  - derives a missing build id from the notification's timestamp;
  - writes the notification log;
  - stops broken builds;
  - fills in the installer, test-packages and mozharness URLs;
  - dispatches one unit per allowed test run and node, pausing after each test
    run.

  Job parameters come from the tree's parameter map.
- **Test runners** (`runtests.py`, `runtests_release.py`). They build the
  mozharness or firefox-ui-tests command line and remove the credentials from
  the child's environment. `runtests.py` folds the return code into a
  `BuildExitCode` that it leaves in `retval.json`.
- **Report submission** (`submission.py`, `treeherder.py`). A Treeherder job is
  created when the run starts and completed with the recorded exit code when it
  ends. The logs go to S3, and failure lines are picked out of the log.
- **Helpers**:
  - `buildbot.py`: the exit-code enumeration;
  - `jenkins.py`: the argparse action that turns the Jenkins placeholder `None`
    into `None`.
- **The on-demand trigger** (`trigger.py`) and **the legacy listener**
  (`pulse.py`).

Python values are modelled by a JSON-like `Value` datatype (`values.dfy`) with
Python's truthiness, `in`, `dict.get` and `==` on numbers. Exceptions become a
`Result` whose `Error` names the Python exception.

Everything outside the process is a function-typed parameter of the operation
that uses it:
- mozdownload's scraper and `requests.head`;
- Jenkins' `build_job` and Taskcluster;
- the Treeherder client and the S3 bucket;
- `subprocess` and the files read and written;
- the clock and `mozinfo`.

The operations are pure functions from inputs and oracles to a result. Where
the source mutates, the result also carries the new state: the log folder and
a trace of dispatch events for `process_build`, and the job data for a
submission.

Module map:

| file | module | models |
|---|---|---|
| wrappers.dfy | Wrappers | `Option`, `Result` with Python's exception kinds, `Check` |
| values.dfy | Values | Python values and the dictionary operations the code uses |
| strings.dfy | Strings | `str` methods, `posixpath`, `str(int)` and `int(str)` |
| buildbot.dfy | BuildBot | `buildbot.py` |
| jenkins_action.dfy | JenkinsAction | `jenkins.py` |
| timestamps.dfy | Timestamps | `strptime`/`strftime` as `process_build` uses them |
| settings.dfy | Settings | the `pulse` and `jenkins` configuration sections |
| queues.dfy | Queues | `lib/queues.py` filters and records |
| locator.dfy | Locator | URL helpers of `lib/automation.py` |
| parameters.dfy | Parameters | `generate_job_parameters` |
| automation.dfy | Automation | `process_build` |
| service.dfy | Service | the queues wired to `process_build` |
| runtests.dfy | RunTests | `runtests.py` |
| runtests_release.dfy | ReleaseRunner | `runtests_release.py` |
| treeherder.dfy | TreeherderReport | `treeherder.py` |
| submission.dfy | Submission | `submission.py` |
| trigger.dfy | OnDemand | `trigger.py` |
| legacy_pulse.dfy | LegacyPulse | `pulse.py` |

Points where the code's behaviour is easy to misread:

- A parameter-map entry with both a `key` and a literal `value` takes the
  property named by `key` (`lib/automation.py:141-149`). See
  `Parameters.KeyBeforeValue`.
- The `raw_json` stored in a build record is the notification with its `branch`
  overwritten, because the code mutates `data` before storing it
  (`lib/queues.py:128-145`).
- An empty tree catalog admits every tree (`lib/queues.py:53-56`). The
  following `trees[tree]` lookup then raises `KeyError`, so the message is not
  quietly rejected.

## Model

| member | source | states |
|---|---|---|
| Wrappers.Need | lib/queues.py:79-83 | a check passes exactly when its condition holds, and otherwise raises the given exception |
| Values.PyIn | lib/automation.py:397 | `in` on a list always answers; on a dictionary with a string it is key membership |
| Values.At | lib/automation.py:351 | `d[k]` succeeds exactly when the key is present, and gives its value |
| Values.Field | lib/queues.py:100-123 | indexing a decoded JSON value succeeds exactly for a dictionary that has the key |
| Values.Get | lib/queues.py:134-135 | `d.get(k, default)` is the value when present and the default otherwise |
| Values.GetField | lib/queues.py:150 | `.get` works only on dictionaries, with `dict.get`'s meaning |
| Values.LowerValue | lib/queues.py:106 | `.lower()` works exactly on strings and gives the lowered string |
| Strings.RFind | lib/automation.py:218 | the last position of a character, with none after it, or -1 when absent |
| Strings.Lower | lib/queues.py:106 | lowering keeps the length and lowers each character |
| Strings.LowerIdempotent | lib/queues.py:138 | lowering a lowered product changes nothing |
| Strings.InOrder | pulse.py:92 | iterating a dictionary visits each of its keys exactly once |
| Values.Elements | pulse.py:92 | iteration yields a list's items, a string's characters and a dictionary's keys, and raises `TypeError` for anything else |
| Strings.ReplaceAbsent | lib/queues.py:128 | a tree without `release-` is its own branch: replacing a pattern that does not occur changes nothing |
| Strings.ReplaceLeading | lib/queues.py:128 | a `release-` tree's branch is the tree without that prefix |
| Strings.ReplaceCharRemoves | jenkins-master/jobs/scripts/workspace/treeherder.py:66 | a Mac version with its dots replaced by dashes has no dot left |
| Strings.JoinSplit | jenkins-master/jobs/trigger-ondemand/workspace/trigger.py:49 | joining the parts of a split with the separator gives the string back |
| Strings.SplitPartsFree | jenkins-master/jobs/trigger-ondemand/workspace/trigger.py:60 | no part of a split contains the separator |
| Strings.PathJoin | lib/automation.py:372 | `os.path.join` restarts at an absolute component and always ends with the last component |
| Strings.BaseName | jenkins-master/jobs/scripts/workspace/submission.py:235 | the base name is a slash-free suffix of the path |
| Strings.NatToStringRoundTrip | jenkins-master/jobs/scripts/workspace/runtests.py:204 | a rendered natural number consists of digits whose value is the number |
| Strings.ParseInt | jenkins-master/jobs/scripts/workspace/submission.py:339 | a string of decimal digits is read as its value |
| Strings.IntToStringRoundTrip | jenkins-master/jobs/scripts/workspace/submission.py:337-342 | `int(str(i)) == i` for every integer, negative ones included |
| BuildBot.NameAt | jenkins-master/jobs/scripts/workspace/buildbot.py:6-20 | `BuildExitCode[i]` succeeds exactly for -7..6, and negative indices count from the end |
| BuildBot.FirstIndex | jenkins-master/jobs/scripts/workspace/buildbot.py:7 | `tuple.index` finds the first occurrence, and fails exactly when the name is absent |
| BuildBot.Ordinal | jenkins-master/jobs/scripts/workspace/buildbot.py:12-20 | `BuildExitCode.<name>` succeeds exactly for the seven names and gives their position |
| BuildBot.NamesDistinct | jenkins-master/jobs/scripts/workspace/buildbot.py:12-20 | no name is listed twice |
| BuildBot.OrdinalTable | jenkins-master/jobs/scripts/workspace/buildbot.py:12-20 | success, testfailed, busted, skipped, exception, retry and usercancel are 0 to 6 |
| BuildBot.OrdinalOfName | jenkins-master/jobs/scripts/workspace/buildbot.py:6-7 | the ordinal of the name at an index is that index |
| BuildBot.NameOfOrdinal | jenkins-master/jobs/scripts/workspace/buildbot.py:6-7 | the name at a name's ordinal is that name |
| JenkinsAction.ResetNone | jenkins-master/jobs/scripts/workspace/jenkins.py:17-18 | only the string `None` becomes `None`, and any other value is kept |
| JenkinsAction.Normalize | jenkins-master/jobs/scripts/workspace/jenkins.py:16-20 | a string `None` is reset, and a list is reset element by element with its length kept |
| JenkinsAction.Call | jenkins-master/jobs/scripts/workspace/jenkins.py:16-22 | only the destination attribute is written, with the normalized value |
| JenkinsAction.NormalizeIdempotent | jenkins-master/jobs/scripts/workspace/jenkins.py:16-20 | normalizing twice is normalizing once |
| JenkinsAction.CallIdempotent | jenkins-master/jobs/scripts/workspace/jenkins.py:16-22 | storing the stored value again changes nothing |
| Timestamps.Parse | lib/automation.py:353-354 | a timestamp that parses is a valid calendar date and time of day |
| Timestamps.BuildIdOf | lib/automation.py:355-356 | `strftime('%Y%m%d%H%M')` succeeds exactly from year 1900 and gives twelve digits |
| Timestamps.BuildIdFromTimestamp | lib/automation.py:351-357 | a derived build id is twelve digits from a timestamp that parsed to a year from 1900 |
| Timestamps.ParseRender | lib/automation.py:353-354 | parsing the canonical rendering of a valid date-time gives the date-time back |
| Timestamps.BuildIdOfRendered | lib/automation.py:351-357 | the build id of a rendered timestamp is its padded year, month, day, hour and minute |
| Settings.TreeOf | lib/automation.py:128 | the tree's settings exist exactly for a string tree in the catalog |
| Queues.Lift | lib/queues.py:82-83 | an exception of a step stops the message as a crash, and a value goes on |
| Queues.Guard | lib/queues.py:79-80 | a filter lets a message through exactly when its condition holds, and otherwise rejects it with the reason |
| Queues.ValidTreeLookups | lib/queues.py:37-56 | in a non-empty catalog an admitted tree has its lists; an empty catalog admits every tree and the per-tree lookup then fails |
| Queues.IsValidLocale | lib/queues.py:37-41 | the blacklist wins, and an empty whitelist admits every locale that is not blacklisted |
| Queues.IsValidPlatform | lib/queues.py:43-46 | an empty list admits every platform, and otherwise the platform must be listed |
| Queues.IsValidProduct | lib/queues.py:48-51 | an empty list admits every product, and otherwise the product must be listed |
| Queues.AsSet | lib/queues.py:58-61 | `set(tags)` succeeds exactly for hashable elements and holds exactly the listed ones |
| Queues.HasValidTags | lib/queues.py:58-61 | with required tags, the check passes exactly when they are a subset of the build's tags; with none it passes unseen |
| Queues.ExtraTagsKeepAcceptance | lib/queues.py:58-61 | extra build tags never turn an accepted build into a rejected one |
| Queues.FunctionalRecord | lib/queues.py:128-145 | the record's branch is derived from the tree, its product is lowered, it allows only the functional test run, and it keeps the notification |
| Queues.FunctionalRecordCopies | lib/queues.py:130-137 | tree, buildid, locale and platform are copied unchanged |
| Queues.FunctionalRecordCopiesRest | lib/queues.py:130-145 | revision, status, tags and version are copied, and build number and URL default to `None` |
| Queues.BuildRecord | lib/queues.py:128-145 | the record is built exactly when the fields are present and tree and product are strings |
| Queues.LaterBuildChecks | lib/queues.py:110-123 | platform, tags and locale are checked in this order, and a rejection names the first that fails |
| Queues.BuildFilter | lib/queues.py:98-146 | an admitted build passed all five checks and yields its record, and a rejection names the failing check |
| Queues.BuildFilterComplete | lib/queues.py:98-146 | for a well-formed notification, admission holds exactly when all five checks pass, and nothing crashes |
| Queues.BuildPayload | lib/queues.py:148-150 | the payload is used when present, and otherwise the body |
| Queues.UpdateProps | lib/queues.py:192-205 | the update record maps branch, from/to build ids and version, lowers the product and allows only the update test run |
| Queues.UpdatePropsCopies | lib/queues.py:192-205 | branch, locale, platform, revision and update number are copied, and there is no status |
| Queues.UpdateRecord | lib/queues.py:192-205 | the update record is built exactly when the fields are present and `appName` is a string |
| Queues.UpdateFilter | lib/queues.py:169-205 | an admitted entry passed the tree, product, platform and locale checks; tags are never checked |
| Queues.UpdateFilterComplete | lib/queues.py:169-205 | for a well-formed entry, admission holds exactly when the four checks pass |
| Queues.UpdateEntries | lib/queues.py:166-169 | a single dictionary is a one-entry list, and a list is its entries |
| Queues.CheckRoutingKeys | lib/queues.py:218-245 | the routing-key gate never crashes, and it cancels only for a key that parses |
| Queues.FunsizePreprocess | lib/queues.py:213-265 | a task with no `workerId` is processed as itself, one with a `workerId` has its manifest fetched, and a message without `CC` crashes |
| Service.Dispatch | lib/automation.py:326-467 | the queues' callback is `process_build` on the world |
| Service.HandleBuildMessage | lib/queues.py:66-87 | a received message is acknowledged whatever happens, and only an admitted build reaches the callback |
| Service.HandleUpdate | lib/queues.py:169-211 | a rejected or failing update entry changes nothing, and an admitted one is dispatched |
| Service.HandleUpdatesAppends | lib/queues.py:169-211 | handling update entries in turn only appends to the trace |
| Service.DispatchAppends | lib/automation.py:326-467 | `process_build` only appends to the trace |
| Service.RejectedEntryIsInert | lib/queues.py:169-211 | a rejected entry might as well not be in the manifest |
| Service.HandleUpdateMessage | lib/queues.py:66-87 | an update message is acknowledged exactly when received, and a cancelled one changes nothing |
| Locator.PlatformIdentifier | lib/automation.py:227-233 | both Mac ids map to `mac`, and every other hashable id maps to itself |
| Locator.PlatformIdentifierIdempotent | lib/automation.py:227-233 | mapping an identifier twice is mapping it once |
| Locator.BuildType | lib/automation.py:172-175 | a truthy override wins, then `candidate` for a `release-` tree, and otherwise `daily` |
| Locator.QueryDefaults | lib/automation.py:177-191 | the default query takes locale and mapped platform, 5 retries 30 s apart, and the optional build fields |
| Locator.QueryFileArgs | lib/automation.py:163-199 | overrides replace defaults key by key, and every other default stays |
| Locator.QueryFileUrl | lib/automation.py:163-199 | a failing build-type lookup fails the query, and otherwise mozdownload is asked with the build type and the defaults updated by the overrides |
| Locator.InstallerUrl | lib/automation.py:201-214 | a truthy `build_url` is used as given, and otherwise the build is queried without overrides |
| Locator.TestPackagesUrl | lib/automation.py:235-245 | a truthy `test_packages_url` is used as given, and otherwise the Treeherder search decides |
| Locator.PrefixTo | lib/automation.py:218 | `s[:i]` with a negative bound counting from the end |
| Locator.MozharnessCandidate | lib/automation.py:218 | the candidate exists exactly for a string URL and ends in `/mozharness.zip` |
| Locator.MozharnessSameFolder | lib/automation.py:216-218 | with a slash, the candidate is the test-packages URL with its file name replaced |
| Locator.MozharnessWithoutSlash | lib/automation.py:218 | without a slash, the candidate drops only the URL's last character |
| Locator.MozharnessUrl | lib/automation.py:216-225 | the candidate when `HEAD` answers 200, `None` for any other status, and a failure for a non-string URL |
| Locator.Transform | lib/automation.py:151-155 | a transform names a method of the class, and an unknown name raises `KeyError` |
| Parameters.ParameterMapOf | lib/automation.py:125-129 | only the `taskcluster` node uses the Taskcluster map, and every other node uses the Jenkins map |
| Parameters.MergedEntries | lib/automation.py:130-134 | test-run entries override the defaults key by key, and the other defaults stay |
| Parameters.Lookup | lib/automation.py:141-149 | a `key` is looked up with its default, else a literal `value`, else all properties |
| Parameters.Resolve | lib/automation.py:151-155 | the transform is applied last, to the looked-up value |
| Parameters.ResolveAll | lib/automation.py:138-161 | it succeeds when every entry resolves, with one parameter per entry and `NODES` set to the node |
| Parameters.JobParameters | lib/automation.py:124-161 | a missing or unknown tree fails, and otherwise the merged entries of the node's map are resolved |
| Parameters.NodesAlwaysSet | lib/automation.py:159 | `NODES` is the node whatever the map says |
| Parameters.EmptyMapOnlyNodes | lib/automation.py:129-130 | without a map the parameters are exactly `{NODES: node}` |
| Parameters.KeyBeforeValue | lib/automation.py:141-147 | an entry with both `key` and `value` takes the property |
| Parameters.OverrideOnlyTouchesItsKey | lib/automation.py:130-134 | a test-run override affects its own parameter alone |
| Automation.DeriveBuildId | lib/automation.py:347-357 | a falsy buildid is replaced by the one derived from the timestamp, and no other property changes |
| Automation.DerivedFromRenderedTimestamp | lib/automation.py:351-357 | a notification with an empty buildid gets the `%Y%m%d%H%M` of its timestamp |
| Automation.FormatFields | lib/automation.py:360-366 | byte-string formatting succeeds exactly when every named field is present and ASCII; otherwise it raises `KeyError` for a missing field or `UnicodeEncodeError` |
| Automation.LogFieldsPresent | lib/automation.py:360-366 | the template's fields are present exactly when the record has a build's console fields |
| Automation.LogLine | lib/automation.py:360-366 | the console line formats exactly when its fields are present and ASCII, and otherwise raises `KeyError` or `UnicodeEncodeError`; with ASCII values, exactly when the fields are present |
| Automation.LogName | lib/automation.py:369-371 | the log name ends with the platform and `.log`, and an update test's name starts with its target buildid |
| Automation.LogPath | lib/automation.py:372 | the path exists exactly for a string tree and ends with the log name |
| Automation.LogPathInTreeFolder | lib/automation.py:372 | with relative parts the log sits in the tree's folder under the log folder |
| Automation.WriteLog | lib/automation.py:374-378 | existing logs are never changed, only the notification's own log is added, and a failed write adds nothing |
| Automation.FirstLogWins | lib/automation.py:374-378 | the first notification for a log path is the one kept |
| Automation.Announce | lib/automation.py:347-372 | before the write, the record has its derived buildid and the log fields, and the path is its log path |
| Automation.StatusError | lib/automation.py:382-384 | a broken status raises `ValueError` with its Buildbot result name |
| Automation.BrokenBuildGate | lib/automation.py:382-384 | only a falsy status, or one equal to 0 or 5, lets the build through |
| Automation.GateByResult | lib/automation.py:347 | success and retry pass, and warnings, failure, skipped and exception stop with their name |
| Automation.CallJobParameters | lib/automation.py:449-451 | a property named `self`, `testrun` or `node` clashes with the call, and otherwise the parameters are generated |
| Automation.JenkinsUnit | lib/automation.py:447-464 | a Jenkins node yields one event for its job, and no trigger in display-only mode |
| Automation.TaskclusterUnit | lib/automation.py:405-445 | the Taskcluster node yields one event, the record only grows, and no task is created in display-only mode |
| Automation.NodeUnit | lib/automation.py:402-464 | each node yields one event for its job and node, and Jenkins nodes leave the record alone |
| Automation.NodeLoop | lib/automation.py:401-464 | one event per node, in node order, whatever happens to the others |
| Automation.JenkinsNodeLoop | lib/automation.py:401-464 | with Jenkins nodes only, the record is unchanged and each node carries the test run's job name |
| Automation.NodesOf | lib/automation.py:401 | the nodes exist exactly for a configured platform identifier |
| Automation.TestrunLoop | lib/automation.py:396-467 | nothing is triggered in display-only mode |
| Automation.AllowedIffListed | lib/automation.py:397 | a test run is allowed exactly when it is listed |
| Automation.DispatchFollowsPlan | lib/automation.py:396-467 | with Jenkins nodes, every allowed test run gives its job on each node and then a pause, and skipped ones give nothing |
| Automation.PrepareDispatch | lib/automation.py:386-393 | dispatch uses the tree's jobs and the mapped platform, and the record gains exactly the three URLs |
| Automation.GateAndDispatch | lib/automation.py:382-467 | a broken build stops with its error, the log folder is untouched, and the trace only grows |
| Automation.ProcessBuild | lib/automation.py:326-467 | the log is written before the gate, existing logs are kept, a broken build triggers nothing, and display-only triggers nothing |
| Automation.ProcessBuildDispatch | lib/automation.py:326-467 | a build that passes every step is dispatched exactly according to the plan |
| RunTests.NewRunner | jenkins-master/jobs/scripts/workspace/runtests.py:93-126 | a runner is built exactly for a non-empty repository, and otherwise raises `TypeError` |
| RunTests.BaseArgs | jenkins-master/jobs/scripts/workspace/runtests.py:48-58 | the command starts with config and installer URL, and it has the test-packages pair exactly when that URL is truthy |
| RunTests.QueryArgsRoundTrip | jenkins-master/jobs/scripts/workspace/runtests.py:48-148 | every argument is read back, optional ones exactly when truthy and the update ones only for update runs |
| RunTests.BaseArgsRoundTrip | jenkins-master/jobs/scripts/workspace/runtests.py:48-108 | config, installer, test packages and branch are read back from the functional command |
| RunTests.UpdatePairs | jenkins-master/jobs/scripts/workspace/runtests.py:139-146 | the update settings come as flag/value pairs, at most four of them |
| RunTests.QueryArgs | jenkins-master/jobs/scripts/workspace/runtests.py:48-58 | the command line is a list of flag/value pairs |
| RunTests.UpdatePairsOrder | jenkins-master/jobs/scripts/workspace/runtests.py:139-146 | the update flags come in the order mar channel, channel, target version, target build id, each only when its value is truthy |
| RunTests.QueryArgsOrder | jenkins-master/jobs/scripts/workspace/runtests.py:48-58 | the flags come in order: configuration, installer URL, test packages when given, branch, then the update flags for an update run |
| RunTests.UpdatePairsRoundTrip | jenkins-master/jobs/scripts/workspace/runtests.py:133-148 | the four update settings are read back when given |
| RunTests.FlagValueAppend | jenkins-master/jobs/scripts/workspace/runtests.py:103-108 | a flag in the first part of a command is found there, and any other flag in the rest |
| RunTests.PopAll | jenkins-master/jobs/scripts/workspace/runtests.py:67-70 | popping variables removes exactly them and keeps every other value |
| RunTests.ChildEnv | jenkins-master/jobs/scripts/workspace/runtests.py:67-73 | the child gets the parent's environment without the credentials, with the minidump folder set |
| RunTests.NoCredentialReachesTests | jenkins-master/jobs/scripts/workspace/runtests.py:22-25 | no credential reaches the tests |
| RunTests.ChildEnvIdempotent | jenkins-master/jobs/scripts/workspace/runtests.py:67-73 | preparing a prepared environment changes nothing |
| RunTests.Command | jenkins-master/jobs/scripts/workspace/runtests.py:75-77 | the interpreter runs the mozharness script unbuffered, with the runner's arguments |
| RunTests.ExitCode | jenkins-master/jobs/scripts/workspace/runtests.py:80-90 | 0 is success, a code that indexes `BuildExitCode` is kept, and anything else is busted |
| RunTests.ExitCodeNamed | jenkins-master/jobs/scripts/workspace/runtests.py:80-90 | every recorded code names an exit code, and recording it again changes nothing |
| RunTests.Run | jenkins-master/jobs/scripts/workspace/runtests.py:60-90 | the run succeeds exactly when the process starts, and gives its folded exit code |
| RunTests.Main | jenkins-master/jobs/scripts/workspace/runtests.py:182-206 | busted is recorded unless the runner returned, and a missing repository raises `TypeError` |
| RunTests.MainRecordsExitCode | jenkins-master/jobs/scripts/workspace/runtests.py:186-206 | `retval.json` always holds an integer that names an exit code, and it is busted after an exception |
| ReleaseRunner.DownloadCommand | jenkins-master/jobs/scripts/workspace/runtests_release.py:42-52 | the command is mozdownload with six arguments, or seven when a build number is given |
| ReleaseRunner.DownloadCommandOrder | jenkins-master/jobs/scripts/workspace/runtests_release.py:42-52 | after `mozdownload` the arguments set destination, type, version, locale and platform in this order, then the build number when given |
| ReleaseRunner.UpdateExtras | jenkins-master/jobs/scripts/workspace/runtests_release.py:70-80 | an update run's extras start with console Gecko logging and add at most three settings |
| ReleaseRunner.UpdateExtrasOrder | jenkins-master/jobs/scripts/workspace/runtests_release.py:70-80 | the extras set the Gecko log, then channel, target version and target build id, each only when given |
| ReleaseRunner.DownloadCommandRoundTrip | jenkins-master/jobs/scripts/workspace/runtests_release.py:42-54 | mozdownload reads back destination, type, version, locale and platform, and the build number only when given |
| ReleaseRunner.OptionValueAppend | jenkins-master/jobs/scripts/workspace/runtests_release.py:43-49 | an option in the first part of a command is found there, and any other option in the rest |
| ReleaseRunner.OptionalSettingSame | jenkins-master/jobs/scripts/workspace/runtests_release.py:51-52 | an optional setting is read back under its name exactly when given |
| ReleaseRunner.TestCommand | jenkins-master/jobs/scripts/workspace/runtests_release.py:56-91 | no installer raises `IndexError`, the update harness runs exactly for update runs, and the manifests follow the test type |
| ReleaseRunner.UpdateExtrasRoundTrip | jenkins-master/jobs/scripts/workspace/runtests_release.py:70-80 | an update run logs Gecko to the console and passes each update setting that was given |
| ReleaseRunner.UpdateCommandRoundTrip | jenkins-master/jobs/scripts/workspace/runtests_release.py:56-91 | an update command reads back the installer, console logging and exactly the given update settings |
| ReleaseRunner.UpdatePrefixSilent | jenkins-master/jobs/scripts/workspace/runtests_release.py:63-68 | the fixed prefix names no update option |
| ReleaseRunner.RunReleaseTests | jenkins-master/jobs/scripts/workspace/runtests_release.py:42-91 | the download runs first, the tests run only after a successful download with an installer, and a non-zero exit raises |
| TreeherderReport.TreeherderPlatform | jenkins-master/jobs/scripts/workspace/treeherder.py:57-75 | an unknown OS gives no platform, an unknown Windows version raises, and the OS and architecture are kept |
| TreeherderReport.PlatformNames | jenkins-master/jobs/scripts/workspace/treeherder.py:57-75 | the platform is linux with the word size, `osx-` with dashes, or the Windows release with the word size except on XP |
| TreeherderReport.NewUITestJob | jenkins-master/jobs/scripts/workspace/treeherder.py:23-55 | a new job is running at tier 3, named after its group and locale, and fails without a host platform |
| TreeherderReport.AddDetails | jenkins-master/jobs/scripts/workspace/treeherder.py:77-82 | one detail is appended and nothing else changes |
| TreeherderReport.Completed | jenkins-master/jobs/scripts/workspace/treeherder.py:84-96 | the job is completed with its result and end time, and details become one `Job Info` artifact |
| TreeherderReport.AddAllDetailsAppends | jenkins-master/jobs/scripts/workspace/treeherder.py:77-82 | details are kept in order and nothing else changes |
| TreeherderReport.JobLifecycle | jenkins-master/jobs/scripts/workspace/treeherder.py:23-96 | a completed job carries one `Job Info` artifact exactly when details were added |
| TreeherderReport.CrashMatchIsContains | jenkins-master/jobs/scripts/workspace/treeherder.py:103-105 | on a line, the `.*CRASH: ` rule is a substring test |
| TreeherderReport.FailureLineRule | jenkins-master/jobs/scripts/workspace/treeherder.py:103-105 | a failure line starts with an unexpected-test or crash-reason marker, or contains `CRASH: ` |
| TreeherderReport.ReadLines | jenkins-master/jobs/scripts/workspace/treeherder.py:111 | every line read is non-empty, with a newline only at its end |
| TreeherderReport.ReadLinesConcat | jenkins-master/jobs/scripts/workspace/treeherder.py:111 | the lines read make up the whole text |
| TreeherderReport.FailuresAppend | jenkins-master/jobs/scripts/workspace/treeherder.py:109-113 | the failures of a log are those of its parts, in order |
| TreeherderReport.FailuresAreMatches | jenkins-master/jobs/scripts/workspace/treeherder.py:109-113 | every reported line matches, and every matching line is reported |
| TreeherderReport.Failures | jenkins-master/jobs/scripts/workspace/treeherder.py:109-113 | the failures are lines of the log, no more of them than there are lines |
| TreeherderReport.Succeeded | jenkins-master/jobs/scripts/workspace/treeherder.py:116-117 | a run succeeds exactly when no line matches |
| TreeherderReport.NoFailuresIffNoFailureLine | jenkins-master/jobs/scripts/workspace/treeherder.py:109-117 | the failure list is empty exactly when no line matches |
| TreeherderReport.FailuresAsJson | jenkins-master/jobs/scripts/workspace/treeherder.py:119-125 | the summary lists every failure line in order, without line numbers, marked as truncated |
| TreeherderReport.SummaryRoundTrip | jenkins-master/jobs/scripts/workspace/treeherder.py:119-125 | the failure lines are read back from the summary |
| Submission.Format | jenkins-master/jobs/scripts/workspace/submission.py:116-121 | formatting succeeds exactly when every field of the template is given |
| Submission.FormatAppend | jenkins-master/jobs/scripts/workspace/submission.py:116-121 | a template is formatted part by part |
| Submission.JobNames | jenkins-master/jobs/scripts/workspace/config.py:11-45 | functional names need the locale, and update names need locale, channel and update number |
| Submission.Append | jenkins-master/jobs/scripts/workspace/submission.py:147-150 | appending puts the item last and keeps every other field |
| Submission.FieldsRoundTrip | jenkins-master/jobs/scripts/workspace/submission.py:97-126 | the job data gives back the fields it was made from |
| Submission.FreshFields | jenkins-master/jobs/scripts/workspace/submission.py:84-128 | a fresh job fails on the first failing source, and otherwise holds the GUID, tier, project, hash, platform, names and start |
| Submission.CreateJob | jenkins-master/jobs/scripts/workspace/submission.py:84-128 | previous data is kept as it is, and otherwise the job holds the fresh fields |
| Submission.Submit | jenkins-master/jobs/scripts/workspace/submission.py:138-161 | the job is stamped, pending details become an artifact and are cleared, and the post decides the error |
| Submission.SubmitRunningJob | jenkins-master/jobs/scripts/workspace/submission.py:163-179 | the job is running, with a link to the Jenkins build exactly when `BUILD_URL` is set |
| Submission.LogDetails | jenkins-master/jobs/scripts/workspace/submission.py:199-205 | one link detail per uploaded log, in order |
| Submission.SubmitCompletedJob | jenkins-master/jobs/scripts/workspace/submission.py:181-207 | an exit code outside `BuildExitCode` raises; otherwise the job is completed with its result, a log reference and upload links |
| Submission.CompletedListsUploads | jenkins-master/jobs/scripts/workspace/submission.py:194-205 | when logs were uploaded, the last artifact lists every upload after the earlier details |
| Submission.UploadOne | jenkins-master/jobs/scripts/workspace/submission.py:231-242 | a log is uploaded exactly when its file exists and the upload succeeds |
| Submission.UploadEach | jenkins-master/jobs/scripts/workspace/submission.py:231-242 | each log gives at most one upload |
| Submission.UploadLogFilesAsWritten | jenkins-master/jobs/scripts/workspace/submission.py:222-227 | with a bucket name the upload raises `TypeError`; without one nothing is uploaded |
| Submission.UploadLogFiles | jenkins-master/jobs/scripts/workspace/submission.py:210-244 | nothing is uploaded without a bucket, and otherwise each log is uploaded in turn |
| Submission.UploadEachAppend | jenkins-master/jobs/scripts/workspace/submission.py:231-242 | logs are uploaded independently, so one failure does not stop the next |
| Submission.UploadEachSound | jenkins-master/jobs/scripts/workspace/submission.py:231-242 | every uploaded log existed and went to its remote path, and every log that can be uploaded is |
| Submission.RemotePathInJobFolder | jenkins-master/jobs/scripts/workspace/submission.py:234-235 | the copy sits in the job's folder under the log's base name |
| Submission.ReadRetval | jenkins-master/jobs/scripts/workspace/submission.py:337-342 | an unreadable or non-integer `retval.json` reads as busted, and otherwise as its integer |
| Submission.ReadJobData | jenkins-master/jobs/scripts/workspace/submission.py:347-351 | an unreadable `job.json` reads as `{}` |
| Submission.CompletedState | jenkins-master/jobs/scripts/workspace/submission.py:337-360 | an exit code outside `BuildExitCode` raises `IndexError` when it is logged, and the job is completed exactly when the exit code names a result and the job is re-created with a GUID |
| Submission.CompletedStateAsWritten | jenkins-master/jobs/scripts/workspace/submission.py:355-360 | with a bucket configured the job is never completed; without one the branch is unchanged |
| Submission.RetvalHandOver | jenkins-master/jobs/scripts/workspace/runtests.py:200-206 | the runner's exit code is read back as itself by the submission and names a result |
| Submission.ReadRecordedRetval | jenkins-master/jobs/scripts/workspace/submission.py:337-344 | a recorded exit code is read back as itself |
| Submission.CompletedKeepsJob | jenkins-master/jobs/scripts/workspace/submission.py:347-354 | the completed branch keeps the running job's data, and a missing file gives a fresh job |
| Submission.RunningState | jenkins-master/jobs/scripts/workspace/submission.py:328-332 | the running branch saves the fresh job and submits it as running |
| OnDemand.EnvironmentPlatform | jenkins-master/jobs/trigger-ondemand/workspace/trigger.py:10-20 | the five platforms map to linux, mac or windows, and any other raises `KeyError` |
| OnDemand.EnvironmentFamilies | jenkins-master/jobs/trigger-ondemand/workspace/trigger.py:10-20 | both widths of a platform share the environment of its family |
| OnDemand.RunEnd | jenkins-master/jobs/trigger-ondemand/workspace/trigger.py:57 | a greedy run ends at the first character that does not continue it |
| OnDemand.ParseEntry | jenkins-master/jobs/trigger-ondemand/workspace/trigger.py:57-59 | an entry names a build exactly when it starts with a digit or dot, and the match is a prefix |
| OnDemand.EntryRoundTrip | jenkins-master/jobs/trigger-ondemand/workspace/trigger.py:57-63 | every entry the configuration can write parses back to its version and build |
| OnDemand.PlatformOptionIsNoEntry | jenkins-master/jobs/trigger-ondemand/workspace/trigger.py:52-65 | the `platform` option names no build |
| OnDemand.OptionValue | jenkins-master/jobs/trigger-ondemand/workspace/trigger.py:46-48 | an option's value is found exactly when the option is present |
| OnDemand.ReportUrl | jenkins-master/jobs/trigger-ondemand/workspace/trigger.py:41 | a non-empty `report` is used, and otherwise the default dashboard |
| OnDemand.Extras | jenkins-master/jobs/trigger-ondemand/workspace/trigger.py:79-87 | update runs take the target build id and endurance runs take delay, entities and iterations, each only when set |
| OnDemand.BuildJob | jenkins-master/jobs/trigger-ondemand/workspace/trigger.py:63-90 | a build number makes a candidate build and none makes a release build as build 1 |
| OnDemand.StartAll | jenkins-master/jobs/trigger-ondemand/workspace/trigger.py:67-90 | Jenkins is asked for the jobs in order; the jobs started are a prefix, and the run stops at the first job Jenkins raises for, with that exception |
| OnDemand.LocaleJobs | jenkins-master/jobs/trigger-ondemand/workspace/trigger.py:67-90 | one job per locale in order until Jenkins raises; an unknown platform stops the run with `KeyError` before any job; the run stops exactly when one of these happens |
| OnDemand.Then | jenkins-master/jobs/trigger-ondemand/workspace/trigger.py:44-90 | an error ends the run, and otherwise the jobs add up |
| OnDemand.EntryJobs | jenkins-master/jobs/trigger-ondemand/workspace/trigger.py:52-90 | every job a section starts runs the run's script, reports to its URL and was accepted by Jenkins |
| OnDemand.EntryJobsOfPlatformAndBuild | jenkins-master/jobs/trigger-ondemand/workspace/trigger.py:52-90 | a section with a platform and one build does what that build's locales do, whatever Jenkins does |
| OnDemand.EntryJobsError | jenkins-master/jobs/trigger-ondemand/workspace/trigger.py:52-90 | a section stops the run exactly when it names a build and either its platform is unknown or Jenkins raises for one of its jobs; an unknown platform stops it with `KeyError` before any job |
| OnDemand.EntryJobsErrorWhenJenkinsPasses | jenkins-master/jobs/trigger-ondemand/workspace/trigger.py:52-90 | when Jenkins starts every job, a section stops the run exactly when its platform is unknown and it names a build |
| OnDemand.SomeRaisesCons | jenkins-master/jobs/trigger-ondemand/workspace/trigger.py:52-90 | Jenkins raises for a job of a section's builds exactly when it does for the first option's build or a later one's |
| OnDemand.SectionJobs | jenkins-master/jobs/trigger-ondemand/workspace/trigger.py:44-90 | every job of a section runs the run's script, reports to its URL and was accepted by Jenkins |
| OnDemand.InertStepDropped | jenkins-master/jobs/trigger-ondemand/workspace/trigger.py:44-47 | a step that does nothing might as well not be there |
| OnDemand.PlatformlessSectionIsInert | jenkins-master/jobs/trigger-ondemand/workspace/trigger.py:46-47 | a section without a platform might as well not be there |
| OnDemand.Main | jenkins-master/jobs/trigger-ondemand/workspace/trigger.py:25-90 | a wrong argument count or a missing script stops the run, and every job runs the script with the report URL and was accepted by Jenkins |
| OnDemand.OneBuildSection | jenkins-master/jobs/trigger-ondemand/workspace/trigger.py:44-90 | a section with one build starts the jobs of its locales in order, on the section's nodes, until Jenkins raises; when Jenkins starts every job there is one per locale |
| LegacyPulse.PlatformMapVariants | pulse.py:52-63 | a debug build runs the tests of its base platform, and both Mac widths run as mac |
| LegacyPulse.PlatformMapKeys | pulse.py:52-63 | the map knows the base platforms and their debug variants, and nothing else |
| LegacyPulse.MapPlatform | pulse.py:136 | a platform maps exactly when it is in the map |
| LegacyPulse.Unpack | pulse.py:92 | whatever iterates to three elements unpacks to its first two: a list's items, a string's characters or a dictionary's distinct keys; anything else raises |
| LegacyPulse.AddTriple | pulse.py:91-94 | a triple with a string name sets that property, and a malformed triple raises |
| LegacyPulse.PropertiesOf | pulse.py:91-94 | the properties are exactly the names the triples set |
| LegacyPulse.PropertiesLastWins | pulse.py:91-94 | the last triple that names a property gives its value |
| LegacyPulse.PropertiesFrom | pulse.py:92 | a list of triples gives its properties, an empty dictionary none, a dictionary succeeds exactly when all its keys have three characters, and a value that cannot be iterated raises `TypeError` |
| LegacyPulse.DictKeysUnpack | pulse.py:92 | a dictionary of properties succeeds exactly when all its keys have three characters |
| LegacyPulse.DictPropertyNames | pulse.py:92 | a dictionary of properties defines the first characters of its keys |
| LegacyPulse.BuildProperties | pulse.py:91-94 | a notification without a payload or a build has no properties, and otherwise the properties come from the build's `properties` |
| LegacyPulse.Locale | pulse.py:97-102 | the locale defaults to en-US |
| LegacyPulse.Allowed | pulse.py:120-124 | an empty list allows everything, and otherwise the value must be listed |
| LegacyPulse.Admit | pulse.py:120-126 | a build passes exactly when all four lists allow it |
| LegacyPulse.EmptyListsAdmitAll | pulse.py:120-126 | without any configured list every build passes |
| LegacyPulse.TrimSlashes | pulse.py:129-131 | trailing slashes are removed and nothing else |
| LegacyPulse.DirName | pulse.py:131 | the directory is a prefix of the path |
| LegacyPulse.InstallerUrl | pulse.py:129-131 | the package URL is used, and it fails when an installer name cannot be joined to it |
| LegacyPulse.PlannedJobs | pulse.py:147-160 | a functional test for the build, preceded by an update test from the previous build exactly when one is named |
| LegacyPulse.TriggerJobs | pulse.py:147-160 | jobs start in order until Jenkins raises |
| LegacyPulse.RoutingKey | pulse.py:83 | the routing key is read from the notification's metadata |
| LegacyPulse.Process | pulse.py:83-160 | a key that does not match starts nothing, and jobs start only for an admitted build with a known platform |
| LegacyPulse.AdmittedBuildFanOut | pulse.py:83-160 | an admitted build starts exactly the planned jobs |
| LegacyPulse.HandleNotificationAsWritten | pulse.py:79-81 | a received message is acknowledged and processed |
| LegacyPulse.ReplayedNotificationIsLost | pulse.py:81 | a replayed notification starts nothing and raises |
| LegacyPulse.HandleNotification | pulse.py:79-160 | a message is acknowledged exactly when there is one, and the notification is always processed |
| LegacyPulse.CorrectionKeepsDeliveredMessages | pulse.py:79-81 | the correction changes nothing for delivered messages, and a replay is handled like a delivery |

## Left out

- I/O is passed in as oracles: logging, `print`, console output and file contents. The model states what is written, not how.
- The debug notification log in `pulse.py` (lines 109-117) writes a file for inspection only and is not modelled.
- Retries are not modelled. Each external call runs once, and `@retriable` decorators do not appear.
- `argparse` and `optparse` parsing is left out. The runners take the parsed options; an argparse rejection is modelled as `None`.
- ConfigParser's `DEFAULT` section and option-name lowercasing are left out. `trigger.py` takes the sections and options as ConfigParser lists them.
- OnDemand.Main: option values are taken as written. `SafeConfigParser.get` expands `%(name)s` references and raises `InterpolationError` for a bad one. At trigger.py:37 (a `testrun` option) and trigger.py:48 (`platform`) that exception would end the run. At trigger.py:60 the bare `except` skips the option. Neither the expansion nor the exception is modelled, because the parsed configuration is an input here.
- thclient's nested `data['job']` dictionary is flattened into one map of job fields.
- `lib/tc.py` (Taskcluster payload and task creation) is an oracle.
- The Treeherder result-set search in `get_test_packages_url` (`lib/automation.py:246-324`) is an oracle.
- `time.sleep` between test runs is a `Pause` event in the trace.
- Virtualenv creation in `runtests_release.py` is left out.
- The installer glob in `runtests_release.py` is left out; its result is an input.
- `ReleaseTaskCompletedQueue` is imported by `lib/automation.py` but is not part of this model. `lib/queues.py` does not define it.
- Dictionary iteration order is unspecified in Python 2. Parameter-map entries and uploaded logs are taken in sequence order, so a failing transform is reported without saying which entry failed.
- Floats are left out. JSON numbers are integers.
- List and dictionary values are rendered by placeholders in `str.format`, because the model never relies on their text.
- A property name that is not a string cannot be passed as a keyword argument. Such names are dropped from the properties.
- Strings.ParseInt: does not accept the surrounding whitespace that Python's `int()` strips. The runner writes `retval.json` without any, so a padded file reads as busted here.
- Timestamps.Parse: covers only the one `strptime` format that `process_build` uses, not `strptime` in general.
- Automation.TestrunLoop: states only the display-only promise for every configuration. The full event plan is proved for Jenkins-only nodes in `Automation.DispatchFollowsPlan`, because Taskcluster units depend on the task-creation oracle.
- Queues.CheckRoutingKeys: states when the gate can cancel and when it must open, not which key cancels. The routing-key parser is an oracle.
- Submission.CompletedState: states the exit-code failure. The successful path is stated by its parts (`Submission.CreateJob`, `Submission.UploadLogFiles`, `Submission.SubmitCompletedJob`).
- OnDemand.SectionJobs: states only that every job belongs to the run and was accepted by Jenkins. Per-section contents are in `OnDemand.OneBuildSection` and `OnDemand.EntryJobsError`.
- Strings.InOrder: iterates a dictionary's keys in lexicographic order. CPython 2.7 does not fix an order, so this is one order it may use. When two three-character keys of a properties dictionary share their first character, which value wins depends on that order.
- Strings.Lower: folds only the ASCII letters. The notification's strings are Unicode, and Python also lowers non-ASCII letters. The model keeps those unchanged.
- RunTests.Main: the `retval.json` write cannot fail. `runtests.py:200-206` catches only `OSError`, and the `IOError` that a failed `file()` raises in Python 2 is not modelled.
- Locator.Transform: names the three single-value methods and the `KeyError`. Other entries of the class dictionary fail, without naming their Python exception.
- `BuildExitCode` negative indices: Python's negative indexing lets a return code from -7 to -1 through the index test in `runtests.py`, and it is recorded as itself. The model keeps this as written (`RunTests.ExitCode`).

## Findings

| source | as written | input that shows it | evidently intended | confidence | as-written member | corrected member |
|---|---|---|---|---|---|---|
| jenkins-master/jobs/scripts/workspace/submission.py:226-227 | `upload_log_files` builds `S3Bucket(bucket_name, access_key_id=..., access_secret_key=...)` | any completed run with `--aws-bucket` set: `S3Bucket.__init__` takes only `bucket_name` (jenkins-master/jobs/scripts/workspace/s3.py:29-33), so the call raises `TypeError`, the job is never marked completed and no log is uploaded | build the bucket from its name, since the credentials come from the environment, then upload each log | not executed | Submission.UploadLogFilesAsWritten | Submission.UploadLogFiles |
| pulse.py:81 | `handle_notification` calls `message.ack()` first and unconditionally | `--push-message FILE`, which calls `handle_notification(data, None)` (pulse.py:210-212): `None.ack()` raises `AttributeError` before the notification is looked at, so a replayed notification never triggers anything | acknowledge only a message there is, as `PulseQueue.process_message` does (lib/queues.py:85-87), and process the notification either way | not executed | LegacyPulse.HandleNotificationAsWritten | LegacyPulse.HandleNotification |
