/** The URL helpers of the dispatcher (lib/automation.py:163-325): the
    platform map, the build-type choice and argument merge for a mozdownload
    query, the installer and test-packages URLs, and the mozharness URL that
    sits next to the test packages. mozdownload, the Treeherder revision
    search and HTTP `HEAD` requests are oracles. */
module Locator {
  import opened Wrappers
  import opened Strings
  import opened Values

  /** The outside services the URL helpers consult. */
  datatype Lookup = Lookup(
    scrape: (Value, Props) -> Result<Value>,   // FactoryScraper(build_type, **kwargs).url
    testPackages: Props -> Result<Value>,      // the test-packages search when no URL is given
    head: string -> Result<int>)               // requests.head(url).status_code

  /** `get_platform_identifier`: RelEng's Mac platform names become `mac`. */
  function PlatformIdentifier(platform: Value): (r: Result<Value>)
    ensures Hashable(platform) <==> r.Success?
    ensures platform == Str("macosx") || platform == Str("macosx64") ==> r == Success(Str("mac"))
    ensures Hashable(platform) && platform != Str("macosx") && platform != Str("macosx64") ==>
              r == Success(platform)
  {
    if !Hashable(platform) then Failure(TypeError("unhashable"))
    else if platform == Str("macosx") || platform == Str("macosx64") then Success(Str("mac"))
    else Success(platform)
  }

  /** Mapping an identifier again changes nothing. */
  lemma PlatformIdentifierIdempotent(platform: Value)
    requires Hashable(platform)
    ensures PlatformIdentifier(PlatformIdentifier(platform).value) == PlatformIdentifier(platform)
  {
  }

  /** The build type of a query: the override if truthy, else `candidate`
      for a `release-` tree and `daily` otherwise. */
  function BuildType(props: Props, overrides: Props): (r: Result<Value>)
    ensures Truthy(Get(overrides, "build_type", Null)) ==> r == Success(overrides["build_type"])
    ensures !Truthy(Get(overrides, "build_type", Null)) && "tree" in props && props["tree"].Str? ==>
              r == Success(Str(if Contains(props["tree"].s, "release-") then "candidate" else "daily"))
  {
    if Truthy(Get(overrides, "build_type", Null)) then Success(overrides["build_type"])
    else
      var tree :- At(props, "tree");
      var release :- PyIn(Str("release-"), tree);
      Success(Str(if release then "candidate" else "daily"))
  }

  /** The keys of the default query arguments. */
  const QueryKeys: set<string> :=
    {"locale", "platform", "retry_attempts", "retry_delay", "branch", "build_id", "build_number", "version"}

  /** The default query arguments of a build, before the overrides. */
  function QueryDefaults(props: Props): (r: Result<Props>)
    ensures r.Success? <==> "locale" in props && "platform" in props && Hashable(props["platform"])
    ensures r.Success? ==> r.value.Keys == QueryKeys
    ensures r.Success? ==> && r.value["locale"] == props["locale"]
                           && r.value["platform"] == PlatformIdentifier(props["platform"]).value
                           && r.value["retry_attempts"] == Int(5) && r.value["retry_delay"] == Int(30)
    ensures r.Success? ==> && r.value["branch"] == Get(props, "branch", Null)
                           && r.value["build_id"] == Get(props, "buildid", Null)
                           && r.value["build_number"] == Get(props, "build_number", Null)
                           && r.value["version"] == Get(props, "version", Null)
  {
    var locale :- At(props, "locale");
    var platform :- At(props, "platform");
    var platformId :- PlatformIdentifier(platform);
    Success(map[
      "locale" := locale,
      "platform" := platformId,
      "retry_attempts" := Int(5),
      "retry_delay" := Int(30),
      "branch" := Get(props, "branch", Null),
      "build_id" := Get(props, "buildid", Null),
      "build_number" := Get(props, "build_number", Null),
      "version" := Get(props, "version", Null)])
  }

  /** The build type and arguments `query_file_url` hands to mozdownload:
      the defaults updated with the overrides, which win key by key. */
  function QueryFileArgs(props: Props, overrides: Props): (r: Result<(Value, Props)>)
    ensures r.Success? <==> BuildType(props, overrides).Success? && QueryDefaults(props).Success?
    ensures r.Success? ==> r.value.0 == BuildType(props, overrides).value
    ensures r.Success? ==> r.value.1.Keys == QueryKeys + overrides.Keys
    ensures r.Success? ==> forall k :: k in overrides ==> r.value.1[k] == overrides[k]
    ensures r.Success? ==> forall k :: k in QueryKeys && k !in overrides ==>
              r.value.1[k] == QueryDefaults(props).value[k]
  {
    var buildType :- BuildType(props, overrides);
    var defaults :- QueryDefaults(props);
    Success((buildType, defaults + overrides))
  }

  /** `query_file_url`: the URL mozdownload finds for the merged query. */
  function QueryFileUrl(lookup: Lookup, props: Props, overrides: Props): (r: Result<Value>)
    ensures BuildType(props, overrides).Failure? ==> r == Failure(BuildType(props, overrides).error)
    ensures BuildType(props, overrides).Success? && QueryDefaults(props).Success? ==>
              r == lookup.scrape(BuildType(props, overrides).value, QueryDefaults(props).value + overrides)
  {
    var args :- QueryFileArgs(props, overrides);
    lookup.scrape(args.0, args.1)
  }

  /** `get_installer_url`: the notification's URL when it has a truthy one,
      else the result of a query without overrides. */
  function InstallerUrl(lookup: Lookup, props: Props): (r: Result<Value>)
    ensures Truthy(Get(props, "build_url", Null)) ==> r == Success(props["build_url"])
    ensures !Truthy(Get(props, "build_url", Null)) ==> r == QueryFileUrl(lookup, props, map[])
  {
    if Truthy(Get(props, "build_url", Null)) then Success(props["build_url"])
    else QueryFileUrl(lookup, props, map[])
  }

  /** `get_test_packages_url`: the notification's URL when it has a truthy
      one, else the search oracle. */
  function TestPackagesUrl(lookup: Lookup, props: Props): (r: Result<Value>)
    ensures Truthy(Get(props, "test_packages_url", Null)) ==> r == Success(props["test_packages_url"])
    ensures !Truthy(Get(props, "test_packages_url", Null)) ==> r == lookup.testPackages(props)
  {
    if Truthy(Get(props, "test_packages_url", Null)) then Success(props["test_packages_url"])
    else lookup.testPackages(props)
  }

  /** Python's `s[:i]`, where a negative bound counts from the end. */
  function PrefixTo(s: string, i: int): (r: string)
    ensures 0 <= i <= |s| ==> r == s[..i]
    ensures -|s| <= i < 0 ==> r == s[..|s| + i]
  {
    if i >= |s| then s
    else if i >= 0 then s[..i]
    else if i >= -|s| then s[..|s| + i]
    else ""
  }

  /** What replaces the last path segment of the test-packages URL. */
  const MozharnessSuffix: string := "/mozharness.zip"

  /** The candidate mozharness URL: everything before the last `/` of the
      test-packages URL, then `/mozharness.zip`. */
  function MozharnessCandidate(testPackagesUrl: Value): (r: Result<string>)
    ensures r.Success? <==> testPackagesUrl.Str?
    ensures r.Success? ==> EndsWith(r.value, MozharnessSuffix)
  {
    if !testPackagesUrl.Str? then Failure(AttributeError("rfind"))
    else
      var s := testPackagesUrl.s;
      var r := PrefixTo(s, RFind(s, '/')) + MozharnessSuffix;
      assert r[|r| - |MozharnessSuffix|..] == MozharnessSuffix;
      Success(r)
  }

  /** With a `/` in the URL, the candidate is the URL with its file name
      replaced by `mozharness.zip`. */
  lemma MozharnessSameFolder(url: string)
    requires '/' in url
    ensures var dir := url[..RFind(url, '/')];
      && url == dir + ['/'] + BaseName(url)
      && MozharnessCandidate(Str(url)) == Success(dir + MozharnessSuffix)
  {
    var i := RFind(url, '/');
    assert BaseName(url) == url[i + 1..];
    assert url == url[..i] + [url[i]] + url[i + 1..];
  }

  /** Without any `/`, `rfind` gives -1 and the slice drops only the last
      character of the URL. */
  lemma MozharnessWithoutSlash(url: string)
    requires '/' !in url && |url| > 0
    ensures MozharnessCandidate(Str(url)) == Success(url[..|url| - 1] + MozharnessSuffix)
  {
  }

  /** `get_mozharness_url`: the candidate URL if a `HEAD` request answers
      200, else `None`. */
  function MozharnessUrl(lookup: Lookup, testPackagesUrl: Value): (r: Result<Value>)
    ensures testPackagesUrl.Str? && lookup.head(MozharnessCandidate(testPackagesUrl).value) == Success(200) ==>
              r == Success(Str(MozharnessCandidate(testPackagesUrl).value))
    ensures testPackagesUrl.Str? && lookup.head(MozharnessCandidate(testPackagesUrl).value).Success? ==>
              (lookup.head(MozharnessCandidate(testPackagesUrl).value).value != 200 ==> r == Success(Null))
    ensures !testPackagesUrl.Str? ==> r.Failure?
  {
    var url :- MozharnessCandidate(testPackagesUrl);
    var status :- lookup.head(url);
    Success(if status == 200 then Str(url) else Null)
  }

  /** The methods a parameter-map `transform` can name, looked up in the
      class dictionary; the rest of the dictionary cannot be called with a
      single value. */
  function Transform(lookup: Lookup, name: string, value: Value): (r: Result<Value>)
    ensures name == "get_platform_identifier" ==> r == PlatformIdentifier(value)
    ensures name == "get_mozharness_url" ==> r == MozharnessUrl(lookup, value)
    ensures name == "get_installer_url" && value.Obj? ==> r == InstallerUrl(lookup, value.fields)
    ensures name !in TransformNames && name !in OtherMembers ==> r == Failure(KeyError(name))
  {
    if name == "get_platform_identifier" then PlatformIdentifier(value)
    else if name == "get_mozharness_url" then MozharnessUrl(lookup, value)
    else if name in {"get_installer_url", "get_test_packages_url", "query_file_url"} then
      if !value.Obj? then Failure(AttributeError("get"))
      else if name == "get_installer_url" then InstallerUrl(lookup, value.fields)
      else if name == "get_test_packages_url" then TestPackagesUrl(lookup, value.fields)
      else QueryFileUrl(lookup, value.fields, map[])
    else if name == "load_authentication_config" then Failure(External("authentication file"))
    else if name in OtherMembers then Failure(TypeError("not callable with one value"))
    else Failure(KeyError(name))
  }

  /** The methods that take one value. */
  const TransformNames: set<string> :=
    {"get_platform_identifier", "get_mozharness_url", "get_installer_url", "get_test_packages_url",
     "query_file_url", "load_authentication_config"}

  /** The other entries of the class dictionary. */
  const OtherMembers: set<string> :=
    {"__init__", "__module__", "__doc__", "generate_job_parameters", "process_build"}
}
