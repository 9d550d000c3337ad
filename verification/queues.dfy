/** The Pulse queues' filter engine and property normalizer (lib/queues.py):
    the allow-list predicates, the ordered filter chain for normalized build
    notifications, and the per-entry filter for funsize update manifests.

    A `ValueError` raised to cancel a notification is the `Stop(reason)`
    outcome; any other exception is `Crash(error)`. */
module Queues {
  import opened Wrappers
  import opened Strings
  import opened Values
  import opened Settings

  /** Why a notification was filtered out, in the order the checks run. */
  datatype Reason =
    | InvalidTree(tree: Value)
    | InvalidProduct(product: string)
    | InvalidPlatform(platform: Value)
    | InvalidTags(tags: Value)
    | InvalidLocale(locale: Value)

  /** The outcome of a filtering step: carry on, cancel with a reason, or fail. */
  datatype Step<+T> = Go(value: T) | Stop(reason: Reason) | Crash(error: Error) {

    predicate IsFailure() {
      !Go?
    }

    function PropagateFailure<U>(): Step<U>
      requires !Go?
    {
      if Stop? then Stop(reason) else Crash(error)
    }

    function Extract(): T
      requires Go?
    {
      value
    }
  }

  /** A check that passes, cancels or fails, without a value. */
  datatype Gate = Open | Closed(reason: Reason) | Broken(error: Error) {

    predicate IsFailure() {
      !Open?
    }

    function PropagateFailure<U>(): Step<U>
      requires !Open?
    {
      if Closed? then Stop(reason) else Crash(error)
    }
  }

  function Lift<T>(r: Result<T>): (s: Step<T>)
    ensures r.Success? <==> s.Go?
    ensures r.Success? ==> s.value == r.value
    ensures r.Failure? ==> s == Crash(r.error)
  {
    match r
    case Success(v) => Go(v)
    case Failure(e) => Crash(e)
  }

  function Guard(condition: bool, reason: Reason): (g: Gate)
    ensures g.Open? <==> condition
    ensures !condition ==> g == Closed(reason)
  {
    if condition then Open else Closed(reason)
  }

  // ---------------------------------------------------------------------
  // The allow-list predicates (lib/queues.py:37-61)
  // ---------------------------------------------------------------------

  /** `is_valid_tree`: an empty catalog admits every tree. */
  predicate IsValidTree(cfg: PulseSettings, tree: Value) {
    |cfg.trees| == 0 || (tree.Str? && tree.s in cfg.trees)
  }

  /** What admitting a tree promises the lookups that follow it: in a
      non-empty catalog an admitted tree has its lists, while an empty
      catalog admits every tree and the per-tree lookups then raise. */
  lemma ValidTreeLookups(cfg: PulseSettings, tree: Value, locale: Value)
    ensures IsValidTree(cfg, tree) && |cfg.trees| > 0 ==> IsValidLocale(cfg, tree, locale).Success?
    ensures |cfg.trees| == 0 ==> IsValidTree(cfg, tree) && IsValidLocale(cfg, tree, locale).Failure?
  {
  }

  /** `is_valid_locale`: the blacklist wins over the whitelist, and an empty
      whitelist admits every locale that is not blacklisted. */
  function IsValidLocale(cfg: PulseSettings, tree: Value, locale: Value): (r: Result<bool>)
    ensures r.Success? <==> tree.Str? && tree.s in cfg.trees
    ensures r.Success? && InStrings(locale, cfg.trees[tree.s].blacklistLocales) ==> !r.value
    ensures r.Success? && |cfg.trees[tree.s].locales| == 0 ==>
              r.value == !InStrings(locale, cfg.trees[tree.s].blacklistLocales)
    ensures r.Success? && |cfg.trees[tree.s].locales| > 0 ==>
              (r.value <==> InStrings(locale, cfg.trees[tree.s].locales)
                            && !InStrings(locale, cfg.trees[tree.s].blacklistLocales))
  {
    var t :- TreeOf(cfg, tree);
    Success(!InStrings(locale, t.blacklistLocales) && (|t.locales| == 0 || InStrings(locale, t.locales)))
  }

  /** `is_valid_platform`: an empty list admits everything. */
  function IsValidPlatform(cfg: PulseSettings, tree: Value, platform: Value): (r: Result<bool>)
    ensures r.Success? <==> tree.Str? && tree.s in cfg.trees
    ensures r.Success? && |cfg.trees[tree.s].platforms| == 0 ==> r.value
    ensures r.Success? && |cfg.trees[tree.s].platforms| > 0 ==>
              (r.value <==> InStrings(platform, cfg.trees[tree.s].platforms))
  {
    var t :- TreeOf(cfg, tree);
    Success(|t.platforms| == 0 || InStrings(platform, t.platforms))
  }

  /** `is_valid_product`: an empty list admits everything. */
  function IsValidProduct(cfg: PulseSettings, tree: Value, product: string): (r: Result<bool>)
    ensures r.Success? <==> tree.Str? && tree.s in cfg.trees
    ensures r.Success? && |cfg.trees[tree.s].products| == 0 ==> r.value
    ensures r.Success? && |cfg.trees[tree.s].products| > 0 ==>
              (r.value <==> product in cfg.trees[tree.s].products)
  {
    var t :- TreeOf(cfg, tree);
    Success(|t.products| == 0 || product in t.products)
  }

  /** `set(v)`: the elements of an iterable value, which must be hashable. */
  function AsSet(v: Value): (r: Result<set<Value>>)
    ensures v.List? ==> (r.Success? <==> forall k :: 0 <= k < |v.items| ==> Hashable(v.items[k]))
    ensures v.List? && r.Success? ==> forall x :: x in r.value <==> x in v.items
  {
    match v
    case List(xs) =>
      if forall k :: 0 <= k < |xs| ==> Hashable(xs[k]) then Success(set x | x in xs)
      else Failure(TypeError("unhashable"))
    case Str(s) => Success(set c | c in s :: Str([c]))
    case Obj(m) => Success(set k | k in m.Keys :: Str(k))
    case _ => Failure(TypeError("not iterable"))
  }

  /** Whether every required tag is among the build's tags. */
  predicate TagsCover(required: seq<string>, have: set<Value>) {
    forall x :: x in required ==> Str(x) in have
  }

  /** `has_valid_tags`: the required tags must be a subset of the build's tags;
      the build's tags are only looked at when some tag is required. */
  function HasValidTags(cfg: PulseSettings, tree: Value, tags: Value): (r: Result<bool>)
    ensures tree.Str? && tree.s in cfg.trees && |cfg.trees[tree.s].tags| == 0 ==> r == Success(true)
    ensures r.Success? ==> tree.Str? && tree.s in cfg.trees
    ensures r.Success? && |cfg.trees[tree.s].tags| > 0 ==>
              AsSet(tags).Success? && (r.value <==> TagsCover(cfg.trees[tree.s].tags, AsSet(tags).value))
  {
    var t :- TreeOf(cfg, tree);
    if |t.tags| == 0 then Success(true)
    else
      var have :- AsSet(tags);
      Success(TagsCover(t.tags, have))
  }

  /** Extra build tags never turn an accepted tag check into a rejection. */
  lemma ExtraTagsKeepAcceptance(cfg: PulseSettings, tree: Value, tags: seq<Value>, extra: seq<Value>)
    requires HasValidTags(cfg, tree, List(tags)) == Success(true)
    requires forall k :: 0 <= k < |extra| ==> Hashable(extra[k])
    ensures HasValidTags(cfg, tree, List(tags + extra)) == Success(true)
  {
    var t := cfg.trees[tree.s];
    if |t.tags| > 0 {
      var have := AsSet(List(tags)).value;
      var more := AsSet(List(tags + extra));
      assert forall k :: 0 <= k < |tags + extra| ==> Hashable((tags + extra)[k]) by {
        forall k | 0 <= k < |tags + extra|
          ensures Hashable((tags + extra)[k])
        {
          if k >= |tags| {
            assert (tags + extra)[k] == extra[k - |tags|];
          } else {
            assert (tags + extra)[k] == tags[k];
            assert tags[k] in tags;
          }
        }
      }
      assert forall x :: x in have ==> x in more.value;
    }
  }

  // ---------------------------------------------------------------------
  // The checks against one tree's settings, as predicates
  // ---------------------------------------------------------------------

  predicate ProductOk(t: TreeSettings, product: string) {
    |t.products| == 0 || product in t.products
  }

  predicate PlatformOk(t: TreeSettings, platform: Value) {
    |t.platforms| == 0 || InStrings(platform, t.platforms)
  }

  predicate TagsOk(t: TreeSettings, tags: Value) {
    |t.tags| == 0 || (AsSet(tags).Success? && TagsCover(t.tags, AsSet(tags).value))
  }

  predicate LocaleOk(t: TreeSettings, locale: Value) {
    !InStrings(locale, t.blacklistLocales) && (|t.locales| == 0 || InStrings(locale, t.locales))
  }

  // ---------------------------------------------------------------------
  // Normalized build notifications (lib/queues.py:98-150)
  // ---------------------------------------------------------------------

  /** Whether a build notification carries the fields the callback reads. */
  predicate HasBuildFields(d: Props) {
    && "tree" in d && "buildid" in d && "locale" in d && "platform" in d && "product" in d
    && "revision" in d && "status" in d && "tags" in d && "version" in d
  }

  /** The branch of a tree: every `'release-'` removed. */
  function BranchOf(tree: string): string {
    Replace(tree, "release-", "")
  }

  /** The property record handed to the callback for an admitted build
      notification: the derived fields. `raw_json` is the notification with
      `branch` overwritten. */
  function FunctionalRecord(data: Props): (r: Props)
    requires HasBuildFields(data) && data["tree"].Str? && data["product"].Str?
    ensures var branch := BranchOf(data["tree"].s);
      && "branch" in r && r["branch"] == Str(branch)
      && "product" in r && r["product"] == Str(Lower(data["product"].s))
      && "allowed_testruns" in r && r["allowed_testruns"] == List([Str("functional")])
      && "raw_json" in r && r["raw_json"] == Obj(data["branch" := Str(branch)])
  {
    var branch := BranchOf(data["tree"].s);
    map[
      "allowed_testruns" := List([Str("functional")]),
      "branch" := Str(branch),
      "buildid" := data["buildid"],
      "build_number" := Get(data, "build_number", Null),
      "build_url" := Get(data, "buildurl", Null),
      "locale" := data["locale"],
      "platform" := data["platform"],
      "product" := Str(Lower(data["product"].s)),
      "revision" := data["revision"],
      "status" := data["status"],
      "tags" := data["tags"],
      "tree" := data["tree"],
      "version" := data["version"],
      "raw_json" := Obj(data["branch" := Str(branch)])]
  }

  /** The fields the build record copies from the notification; the build
      number and build URL may be absent and are then `None`. */
  lemma FunctionalRecordCopies(data: Props)
    requires HasBuildFields(data) && data["tree"].Str? && data["product"].Str?
    ensures var r := FunctionalRecord(data);
      && "tree" in r && r["tree"] == data["tree"]
      && "buildid" in r && r["buildid"] == data["buildid"]
      && "locale" in r && r["locale"] == data["locale"]
      && "platform" in r && r["platform"] == data["platform"]
  {
  }

  /** The remaining copied fields. */
  lemma FunctionalRecordCopiesRest(data: Props)
    requires HasBuildFields(data) && data["tree"].Str? && data["product"].Str?
    ensures var r := FunctionalRecord(data);
      && "revision" in r && r["revision"] == data["revision"]
      && "status" in r && r["status"] == data["status"]
      && "tags" in r && r["tags"] == data["tags"]
      && "version" in r && r["version"] == data["version"]
      && "build_number" in r && r["build_number"] == Get(data, "build_number", Null)
      && "build_url" in r && r["build_url"] == Get(data, "buildurl", Null)
  {
  }

  /** Building the record fails on the first missing key, or on a tree or
      product that is not a string, in the order the source reads them. */
  function BuildRecord(data: Props): (r: Result<Props>)
    ensures r.Success? <==> HasBuildFields(data) && data["tree"].Str? && data["product"].Str?
    ensures r.Success? ==> r.value == FunctionalRecord(data)
  {
    if "tree" !in data then Failure(KeyError("tree"))
    else if !data["tree"].Str? then Failure(AttributeError("replace"))
    else if !("buildid" in data && "locale" in data && "platform" in data && "product" in data) then
      Failure(KeyError(FirstMissing(data, ["buildid", "locale", "platform", "product"])))
    else if !data["product"].Str? then Failure(AttributeError("lower"))
    else if !HasBuildFields(data) then
      Failure(KeyError(FirstMissing(data, ["revision", "status", "tags", "version"])))
    else Success(FunctionalRecord(data))
  }

  /** All five checks of a build notification whose fields are present. */
  predicate BuildAdmitted(cfg: PulseSettings, data: Props)
    requires HasBuildFields(data)
  {
    && data["tree"].Str? && data["tree"].s in cfg.trees
    && data["product"].Str?
    && var t := cfg.trees[data["tree"].s];
    && ProductOk(t, Lower(data["product"].s))
    && PlatformOk(t, data["platform"])
    && TagsOk(t, data["tags"])
    && LocaleOk(t, data["locale"])
  }

  /** `reason` names the first of the platform, tags and locale checks of
      `data` against `t` that fails. */
  predicate LaterRejection(t: TreeSettings, data: Props, reason: Reason) {
    match reason
    case InvalidPlatform(platform) =>
      "platform" in data && platform == data["platform"] && !PlatformOk(t, platform)
    case InvalidTags(tags) =>
      && "platform" in data && PlatformOk(t, data["platform"])
      && "tags" in data && tags == data["tags"]
      && |t.tags| > 0 && AsSet(tags).Success? && !TagsCover(t.tags, AsSet(tags).value)
    case InvalidLocale(locale) =>
      && "platform" in data && PlatformOk(t, data["platform"])
      && "tags" in data && TagsOk(t, data["tags"])
      && "locale" in data && locale == data["locale"] && !LocaleOk(t, locale)
    case _ => false
  }

  /** The platform, tags and locale checks and the record, once the tree is
      known to be in the catalog. */
  function LaterBuildChecks(cfg: PulseSettings, tree: Value, data: Props): (r: Step<Props>)
    requires tree.Str? && tree.s in cfg.trees
    requires "tree" in data && data["tree"] == tree
    requires "product" in data && data["product"].Str?
    ensures r.Go? ==> var t := cfg.trees[tree.s];
      && HasBuildFields(data) && PlatformOk(t, data["platform"]) && TagsOk(t, data["tags"])
      && LocaleOk(t, data["locale"]) && BuildRecord(data) == Success(r.value)
    ensures r.Stop? ==> LaterRejection(cfg.trees[tree.s], data, r.reason)
  {
    var platform :- Lift(At(data, "platform"));
    :- Guard(IsValidPlatform(cfg, tree, platform).value, InvalidPlatform(platform));
    var tags :- Lift(At(data, "tags"));
    var tagsOk :- Lift(HasValidTags(cfg, tree, tags));
    :- Guard(tagsOk, InvalidTags(tags));
    var locale :- Lift(At(data, "locale"));
    :- Guard(IsValidLocale(cfg, tree, locale).value, InvalidLocale(locale));
    Lift(BuildRecord(data))
  }

  /** `NormalizedBuildQueue._on_message` up to the callback: the ordered
      filter chain tree, product, platform, tags, locale. */
  function BuildFilter(cfg: PulseSettings, data: Value): (r: Step<Props>)
    ensures r.Go? ==> data.Obj? && HasBuildFields(data.fields) && BuildAdmitted(cfg, data.fields)
    ensures r.Go? ==> BuildRecord(data.fields) == Success(r.value)
    ensures r.Stop? ==> data.Obj? && "tree" in data.fields
    ensures r.Stop? && r.reason.InvalidTree? ==>
              r.reason.tree == data.fields["tree"] && !IsValidTree(cfg, data.fields["tree"])
    ensures r.Stop? && !r.reason.InvalidTree? ==>
              && data.fields["tree"].Str? && data.fields["tree"].s in cfg.trees
              && "product" in data.fields && data.fields["product"].Str?
    ensures r.Stop? && r.reason.InvalidProduct? ==>
              && r.reason.product == Lower(data.fields["product"].s)
              && !ProductOk(cfg.trees[data.fields["tree"].s], r.reason.product)
    ensures r.Stop? && !r.reason.InvalidTree? && !r.reason.InvalidProduct? ==>
              && ProductOk(cfg.trees[data.fields["tree"].s], Lower(data.fields["product"].s))
              && LaterRejection(cfg.trees[data.fields["tree"].s], data.fields, r.reason)
  {
    var tree :- Lift(Field(data, "tree"));
    :- Guard(IsValidTree(cfg, tree), InvalidTree(tree));
    var productValue :- Lift(Field(data, "product"));
    var product :- Lift(LowerValue(productValue));
    var productOk :- Lift(IsValidProduct(cfg, tree, product));
    :- Guard(productOk, InvalidProduct(product));
    LaterBuildChecks(cfg, tree, data.fields)
  }

  /** A build notification whose fields are present and well typed, for a
      tree in the catalog. */
  predicate WellFormedBuild(cfg: PulseSettings, data: Value) {
    && data.Obj?
    && HasBuildFields(data.fields)
    && data.fields["tree"].Str? && data.fields["tree"].s in cfg.trees
    && data.fields["product"].Str?
    && AsSet(data.fields["tags"]).Success?
  }

  /** For a well-formed notification the chain reaches the callback exactly
      when all five checks pass, and otherwise cancels, never fails. */
  lemma BuildFilterComplete(cfg: PulseSettings, data: Value)
    requires WellFormedBuild(cfg, data)
    ensures BuildFilter(cfg, data).Go? <==> BuildAdmitted(cfg, data.fields)
    ensures !BuildFilter(cfg, data).Crash?
  {
  }

  /** `_preprocess_message`: the payload if there is one, else the body. */
  function BuildPayload(body: Value): (r: Result<Value>)
    ensures body.Obj? && "payload" in body.fields ==> r == Success(body.fields["payload"])
    ensures body.Obj? && "payload" !in body.fields ==> r == Success(body)
    ensures !body.Obj? ==> r.Failure?
  {
    GetField(body, "payload", body)
  }

  /** The build queue from message body to callback arguments. */
  function BuildNotification(cfg: PulseSettings, body: Value): Step<Props> {
    var data :- Lift(BuildPayload(body));
    BuildFilter(cfg, data)
  }

  // ---------------------------------------------------------------------
  // Funsize update manifests (lib/queues.py:164-265)
  // ---------------------------------------------------------------------

  /** Whether an update entry carries the fields the callback reads. */
  predicate HasUpdateFields(d: Props) {
    && "branch" in d && "from_buildid" in d && "locale" in d && "platform" in d && "appName" in d
    && "revision" in d && "to_buildid" in d && "version" in d && "update_number" in d
  }

  /** The property record handed to the callback for an admitted update
      entry: the derived and renamed fields. */
  function UpdateProps(update: Props): (r: Props)
    requires HasUpdateFields(update) && update["appName"].Str?
    ensures && "allowed_testruns" in r && r["allowed_testruns"] == List([Str("update")])
            && "tree" in r && r["tree"] == update["branch"]
            && "buildid" in r && r["buildid"] == update["from_buildid"]
            && "target_buildid" in r && r["target_buildid"] == update["to_buildid"]
            && "target_version" in r && r["target_version"] == update["version"]
            && "product" in r && r["product"] == Str(Lower(update["appName"].s))
            && "raw_json" in r && r["raw_json"] == Obj(update)
  {
    map[
      "allowed_testruns" := List([Str("update")]),
      "branch" := update["branch"],
      "buildid" := update["from_buildid"],
      "locale" := update["locale"],
      "platform" := update["platform"],
      "product" := Str(Lower(update["appName"].s)),
      "revision" := update["revision"],
      "target_buildid" := update["to_buildid"],
      "target_version" := update["version"],
      "tree" := update["branch"],
      "update_number" := update["update_number"],
      "raw_json" := Obj(update)]
  }

  /** The fields the update record copies unchanged; it has no `status`. */
  lemma UpdatePropsCopies(update: Props)
    requires HasUpdateFields(update) && update["appName"].Str?
    ensures var r := UpdateProps(update);
      && "branch" in r && r["branch"] == update["branch"]
      && "locale" in r && r["locale"] == update["locale"]
      && "platform" in r && r["platform"] == update["platform"]
      && "revision" in r && r["revision"] == update["revision"]
      && "update_number" in r && r["update_number"] == update["update_number"]
      && "status" !in r
  {
  }

  /** Building the record fails on the first missing key or on an
      `appName` that is not a string. */
  function UpdateRecord(update: Props): (r: Result<Props>)
    ensures r.Success? <==> HasUpdateFields(update) && update["appName"].Str?
    ensures r.Success? ==> r.value == UpdateProps(update)
  {
    if !("branch" in update && "from_buildid" in update && "locale" in update && "platform" in update
         && "appName" in update) then
      Failure(KeyError(FirstMissing(update, ["branch", "from_buildid", "locale", "platform", "appName"])))
    else if !update["appName"].Str? then Failure(AttributeError("lower"))
    else if !HasUpdateFields(update) then
      Failure(KeyError(FirstMissing(update, ["revision", "to_buildid", "version", "update_number"])))
    else Success(UpdateProps(update))
  }

  /** The four checks of an update entry whose fields are present. */
  predicate UpdateAdmitted(cfg: PulseSettings, update: Props)
    requires HasUpdateFields(update)
  {
    && update["branch"].Str? && update["branch"].s in cfg.trees
    && update["appName"].Str?
    && var t := cfg.trees[update["branch"].s];
    && ProductOk(t, Lower(update["appName"].s))
    && PlatformOk(t, update["platform"])
    && LocaleOk(t, update["locale"])
  }

  /** The checks of one update entry: tree, product, platform, locale (no tags). */
  function UpdateFilter(cfg: PulseSettings, update: Value): (r: Step<Props>)
    ensures r.Go? ==> update.Obj? && HasUpdateFields(update.fields) && UpdateAdmitted(cfg, update.fields)
    ensures r.Go? ==> UpdateRecord(update.fields) == Success(r.value)
    ensures r.Stop? ==> update.Obj? && "branch" in update.fields
    ensures r.Stop? && r.reason.InvalidTree? ==> !IsValidTree(cfg, update.fields["branch"])
    ensures r.Stop? && !r.reason.InvalidTree? ==>
              update.fields["branch"].Str? && update.fields["branch"].s in cfg.trees
    ensures r.Stop? ==> !r.reason.InvalidTags?
  {
    var tree :- Lift(Field(update, "branch"));
    :- Guard(IsValidTree(cfg, tree), InvalidTree(tree));
    var appName :- Lift(Field(update, "appName"));
    var product :- Lift(LowerValue(appName));
    var productOk :- Lift(IsValidProduct(cfg, tree, product));
    :- Guard(productOk, InvalidProduct(product));
    // The product check has looked the tree up, so the later lookups succeed.
    var platform :- Lift(Field(update, "platform"));
    :- Guard(IsValidPlatform(cfg, tree, platform).value, InvalidPlatform(platform));
    var locale :- Lift(Field(update, "locale"));
    :- Guard(IsValidLocale(cfg, tree, locale).value, InvalidLocale(locale));
    Lift(UpdateRecord(update.fields))
  }

  /** An update entry whose fields are present and well typed, for a tree in the catalog. */
  predicate WellFormedUpdate(cfg: PulseSettings, update: Value) {
    && update.Obj?
    && HasUpdateFields(update.fields)
    && update.fields["branch"].Str? && update.fields["branch"].s in cfg.trees
    && update.fields["appName"].Str?
  }

  /** For a well-formed entry the callback is reached exactly when all four
      checks pass; otherwise the entry is cancelled, never failed. */
  lemma UpdateFilterComplete(cfg: PulseSettings, update: Value)
    requires WellFormedUpdate(cfg, update)
    ensures UpdateFilter(cfg, update).Go? <==> UpdateAdmitted(cfg, update.fields)
    ensures !UpdateFilter(cfg, update).Crash?
  {
  }

  /** The entries of an update message: a single dictionary is a one-entry
      list; iterating a string yields its characters. */
  function UpdateEntries(data: Value): (r: Result<seq<Value>>)
    ensures data.Obj? ==> r == Success([data])
    ensures data.List? ==> r == Success(data.items)
    ensures r.Success? <==> data.Obj? || data.List? || data.Str?
  {
    match data
    case Obj(_) => Success([data])
    case List(xs) => Success(xs)
    case Str(s) => Success(seq(|s|, k requires 0 <= k < |s| => Str([s[k]])))
    case _ => Failure(TypeError("not iterable"))
  }

  /** A received kombu message; only its `CC` routing-key header is read. */
  datatype Message = Message(cc: Option<seq<string>>)

  /** The routing-key gate of the funsize preprocessor: the first parsed key
      whose tree is not covered, or whose platform is not covered, cancels the
      message; a failure looking up the tree's platforms is only logged. */
  function CheckRoutingKeys(cfg: PulseSettings, keys: seq<string>, parseKey: string -> Option<(string, string)>): (g: Gate)
    ensures !g.Broken?
    ensures g.Closed? ==> exists k :: 0 <= k < |keys| && parseKey(keys[k]).Some?
    ensures (forall k :: 0 <= k < |keys| ==> parseKey(keys[k]).None?) ==> g.Open?
    decreases |keys|
  {
    if |keys| == 0 then Open
    else
      var rest := CheckRoutingKeys(cfg, keys[1..], parseKey);
      assert rest.Closed? ==> exists k :: 0 <= k < |keys| && parseKey(keys[k]).Some? by {
        if rest.Closed? {
          var j :| 0 <= j < |keys[1..]| && parseKey(keys[1..][j]).Some?;
          assert keys[1..][j] == keys[j + 1];
        }
      }
      match parseKey(keys[0])
      case None => rest
      case Some((tree, platform)) =>
        if !IsValidTree(cfg, Str(tree)) then Closed(InvalidTree(Str(tree)))
        else
          match IsValidPlatform(cfg, Str(tree), Str(platform))
          case Failure(_) => rest
          case Success(ok) => if ok then rest else Closed(InvalidPlatform(Str(platform)))
  }

  /** `FunsizeTaskCompletedQueue._preprocess_message`: the routing-key gate
      (only for a received message), then the manifest itself or the one
      fetched for the task. */
  function FunsizePreprocess(cfg: PulseSettings, body: Value, message: Option<Message>,
                             parseKey: string -> Option<(string, string)>,
                             fetchManifest: Value -> Result<Value>): (r: Step<Value>)
    ensures message.None? && body.Obj? && "workerId" !in body.fields ==> r == Go(body)
    ensures message.None? && body.Obj? && "workerId" in body.fields ==> r == Lift(fetchManifest(body))
    ensures message.Some? && message.value.cc.None? ==> r.Crash?
  {
    var gate := if message.None? then Open
                else if message.value.cc.None? then Broken(KeyError("CC"))
                else CheckRoutingKeys(cfg, message.value.cc.value, parseKey);
    :- gate;
    var hasWorker :- Lift(PyIn(Str("workerId"), body));
    if !hasWorker then Go(body) else Lift(fetchManifest(body))
  }
}
