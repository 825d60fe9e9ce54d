/**
  The pieces of the admin API's info controller that compute something: the grouping of an
  app's ACL privileges, the queue statistics, the Content-Security-Policy header of the API
  browser page, the administration assets of the kernel's bundles merged with the active apps,
  and the guards of the OpenAPI and flow-action endpoints.

  File existence, the asset package's URL builder, the API-type lookup and the flow-action
  collector are functions given as parameters; nothing is assumed about them.
*/
module ApiInfo {
  import opened Wrappers
  import opened Php

  // ---------------------------------------------------------------------------------------
  // ACL privileges of an app
  // ---------------------------------------------------------------------------------------

  const ADDITIONAL := "additional"

  /** Privileges grouped by key: `entity:key` puts `entity` under `key`. */
  type Buckets = map<string, seq<string>>

  /** Where one privilege goes, and what is appended there. */
  datatype Placement = Placement(bucket: string, entry: string)

  /** `entity:key` with exactly one colon goes to bucket `key` as `entity`; anything else goes
      to `additional` verbatim. */
  function PlacePrivilege(privilege: string): (p: Placement)
    ensures CountChar(privilege, ':') == 1 ==>
      p.entry + [':'] + p.bucket == privilege && ':' !in p.entry && ':' !in p.bucket
    ensures CountChar(privilege, ':') != 1 ==> p == Placement(ADDITIONAL, privilege)
  {
    if CountChar(privilege, ':') != 1 then Placement(ADDITIONAL, privilege)
    else
      var i := IndexOf(privilege, ':');
      assert privilege == privilege[..i] + [':'] + privilege[i + 1..];
      CountCharAppend(privilege[..i] + [':'], privilege[i + 1..], ':');
      CountCharAppend(privilege[..i], [':'], ':');
      Placement(privilege[i + 1..], privilege[..i])
  }

  function AppendTo(buckets: Buckets, key: string, value: string): Buckets {
    buckets[key := (if key in buckets then buckets[key] else []) + [value]]
  }

  /** The grouping the controller builds, privilege after privilege. */
  function Grouped(privileges: seq<string>): Buckets {
    if privileges == [] then map[]
    else
      var p := PlacePrivilege(privileges[|privileges| - 1]);
      AppendTo(Grouped(privileges[..|privileges| - 1]), p.bucket, p.entry)
  }

  /** Reference definition: the entries of the privileges placed in `key`, in input order. */
  function BucketOf(privileges: seq<string>, key: string): seq<string> {
    if privileges == [] then []
    else
      var p := PlacePrivilege(privileges[|privileges| - 1]);
      BucketOf(privileges[..|privileges| - 1], key) + (if p.bucket == key then [p.entry] else [])
  }

  /** Each bucket holds exactly the entries of the privileges placed in it, in input order;
      a bucket exists only if something was placed in it. */
  lemma {:induction false} GroupedBuckets(privileges: seq<string>, key: string)
    ensures key in Grouped(privileges) <==> BucketOf(privileges, key) != []
    ensures key in Grouped(privileges) ==> Grouped(privileges)[key] == BucketOf(privileges, key)
  {
    if privileges != [] {
      var front := privileges[..|privileges| - 1];
      var last := privileges[|privileges| - 1];
      var p := PlacePrivilege(last);
      assert Grouped(privileges) == AppendTo(Grouped(front), p.bucket, p.entry);
      GroupedBuckets(front, key);
      if p.bucket == key {
        assert BucketOf(privileges, key) == BucketOf(front, key) + [p.entry];
      } else {
        assert BucketOf(privileges, key) == BucketOf(front, key);
      }
    }
  }

  ghost function PickKey(buckets: Buckets): string
    requires buckets != map[]
  {
    var k :| k in buckets; k
  }

  /** The number of entries over all buckets. */
  ghost function TotalSize(buckets: Buckets): nat
    decreases |buckets|
  {
    if buckets == map[] then 0
    else
      var k := PickKey(buckets);
      assert |buckets - {k}| < |buckets| by {
        assert (buckets - {k}).Keys == buckets.Keys - {k};
      }
      |buckets[k]| + TotalSize(buckets - {k})
  }

  lemma {:induction false} TotalSizeAt(buckets: Buckets, key: string)
    requires key in buckets
    ensures TotalSize(buckets) == |buckets[key]| + TotalSize(buckets - {key})
    decreases |buckets|
  {
    var j := PickKey(buckets);
    if j != key {
      assert (buckets - {j}).Keys == buckets.Keys - {j};
      TotalSizeAt(buckets - {j}, key);
      TotalSizeAt(buckets - {key}, j);
      assert buckets - {j} - {key} == buckets - {key} - {j};
    }
  }

  lemma TotalSizeAppend(buckets: Buckets, key: string, value: string)
    ensures TotalSize(AppendTo(buckets, key, value)) == TotalSize(buckets) + 1
  {
    var grown := AppendTo(buckets, key, value);
    TotalSizeAt(grown, key);
    assert grown - {key} == buckets - {key};
    if key in buckets {
      TotalSizeAt(buckets, key);
    } else {
      assert buckets - {key} == buckets;
    }
  }

  /** Every privilege lands in exactly one bucket: the bucket sizes add up to the input length. */
  lemma {:induction false} GroupedTotal(privileges: seq<string>)
    ensures TotalSize(Grouped(privileges)) == |privileges|
  {
    if privileges != [] {
      var p := PlacePrivilege(privileges[|privileges| - 1]);
      GroupedTotal(privileges[..|privileges| - 1]);
      TotalSizeAppend(Grouped(privileges[..|privileges| - 1]), p.bucket, p.entry);
    }
  }

  /** The privilege mapper of the active-apps query; `None` is a null or empty column. */
  method GroupPrivileges(privileges: Option<seq<string>>) returns (buckets: Buckets)
    ensures buckets == Grouped(privileges.GetOr([]))
  {
    var list := privileges.GetOr([]);
    buckets := map[];
    for i := 0 to |list|
      invariant buckets == Grouped(list[..i])
    {
      assert list[..i + 1][..i] == list[..i];
      var privilege := list[i];
      if CountChar(privilege, ':') != 1 {
        buckets := AppendTo(buckets, ADDITIONAL, privilege);
      } else {
        var colon := IndexOf(privilege, ':');
        var entity, key := privilege[..colon], privilege[colon + 1..];
        buckets := AppendTo(buckets, key, entity);
      }
    }
    assert list[..|list|] == list;
  }

  // ---------------------------------------------------------------------------------------
  // Active apps
  // ---------------------------------------------------------------------------------------

  /** A row of the app table joined with its ACL role; `privileges` is the decoded list. */
  datatype AppRow = AppRow(name: string, active: int, integrationId: string, baseUrl: Option<string>,
                           version: string, privileges: Option<seq<string>>)

  datatype ActiveApp = ActiveApp(name: string, active: int, integrationId: string, baseUrl: string,
                                 version: string, privileges: Buckets)

  /** The query's filter: active apps with a base URL. */
  predicate IsListed(row: AppRow) {
    row.active == 1 && row.baseUrl.Some?
  }

  /** A listed row as the controller returns it: the privileges column grouped. */
  function ListedApp(row: AppRow): (app: ActiveApp)
    requires row.baseUrl.Some?
    ensures app.name == row.name && app.active == row.active && app.integrationId == row.integrationId
    ensures app.baseUrl == row.baseUrl.value && app.version == row.version
    ensures app.privileges == Grouped(row.privileges.GetOr([]))
  {
    ActiveApp(row.name, row.active, row.integrationId, row.baseUrl.value, row.version,
              Grouped(row.privileges.GetOr([])))
  }

  /** The rows of the active-apps query, in table order. */
  function ActiveApps(table: seq<AppRow>): (apps: seq<ActiveApp>)
    ensures |apps| <= |table|
    ensures forall a :: a in apps ==> a.active == 1
  {
    if table == [] then []
    else
      var row := table[|table| - 1];
      ActiveApps(table[..|table| - 1]) + (if IsListed(row) then [ListedApp(row)] else [])
  }

  /** An app is listed exactly when it comes from an active row with a base URL. */
  lemma {:induction false} ActiveAppsMembership(table: seq<AppRow>, app: ActiveApp)
    ensures app in ActiveApps(table) <==>
      exists i :: 0 <= i < |table| && IsListed(table[i]) && app == ListedApp(table[i])
  {
    if table != [] {
      var front := table[..|table| - 1];
      ActiveAppsMembership(front, app);
      if exists i :: 0 <= i < |front| && IsListed(front[i]) && app == ListedApp(front[i]) {
        var i :| 0 <= i < |front| && IsListed(front[i]) && app == ListedApp(front[i]);
        assert table[i] == front[i];
      }
      if exists i :: 0 <= i < |table| && IsListed(table[i]) && app == ListedApp(table[i]) {
        var i :| 0 <= i < |table| && IsListed(table[i]) && app == ListedApp(table[i]);
        if i < |front| {
          assert front[i] == table[i];
        }
      }
    }
  }

  /** The listing keeps table order: listing two tables one after the other is listing both. */
  lemma {:induction false} ActiveAppsConcat(first: seq<AppRow>, second: seq<AppRow>)
    ensures ActiveApps(first + second) == ActiveApps(first) + ActiveApps(second)
  {
    if second == [] {
      assert first + second == first;
    } else {
      var front := second[..|second| - 1];
      ActiveAppsConcat(first, front);
      assert (first + second)[..|first + second| - 1] == first + front;
    }
  }

  method GetActiveApps(table: seq<AppRow>) returns (apps: seq<ActiveApp>)
    ensures apps == ActiveApps(table)
  {
    apps := [];
    for i := 0 to |table|
      invariant apps == ActiveApps(table[..i])
    {
      assert table[..i + 1][..i] == table[..i];
      var row := table[i];
      if IsListed(row) {
        var privileges := GroupPrivileges(row.privileges);
        apps := apps + [ActiveApp(row.name, row.active, row.integrationId, row.baseUrl.value, row.version, privileges)];
        assert apps[|apps| - 1] == ListedApp(row);
      }
    }
    assert table[..|table|] == table;
  }

  // ---------------------------------------------------------------------------------------
  // Administration assets of the kernel's bundles
  // ---------------------------------------------------------------------------------------

  /** A kernel bundle: not a platform bundle, a platform bundle, or a plugin with its admin base URL. */
  datatype BundleKind = OtherBundle | PlatformBundle | Plugin(adminBaseUrl: Option<string>)

  datatype KernelBundle = KernelBundle(name: string, path: string, containerPrefix: string, kind: BundleKind)

  /** File existence and the asset package's URL builder. */
  datatype AssetEnvironment = AssetEnvironment(fileExists: string -> bool, packageUrl: string -> string)

  datatype AssetKind = Css | Js

  function AssetFolder(kind: AssetKind): string {
    match kind
    case Css => "administration/css/"
    case Js => "administration/js/"
  }

  function AssetExtension(kind: AssetKind): string {
    match kind
    case Css => ".css"
    case Js => ".js"
  }

  function PublicFile(bundle: KernelBundle, file: string): string {
    bundle.path + "/Resources/public/" + file
  }

  function BundleUrl(directory: string, file: string): string {
    "bundles/" + directory + "/" + file
  }

  /** The bundle's administration stylesheet or script: the container prefix with `_` turned into `-`. */
  function AdministrationAssetPath(kind: AssetKind, containerPrefix: string): (path: string)
    ensures |path| == |AssetFolder(kind)| + |containerPrefix| + |AssetExtension(kind)|
    ensures path[..|AssetFolder(kind)|] == AssetFolder(kind)
    ensures path[|path| - |AssetExtension(kind)|..] == AssetExtension(kind)
    ensures forall i :: 0 <= i < |containerPrefix| ==>
      path[|AssetFolder(kind)| + i] == (if containerPrefix[i] == '_' then '-' else containerPrefix[i])
  {
    StrReplaceOneChar(containerPrefix, '_', '-');
    AssetFolder(kind) + StrReplace(containerPrefix, "_", "-") + AssetExtension(kind)
  }

  /** `getAdministrationStyles` / `getAdministrationScripts`: the asset path if the file exists. */
  function AdministrationAssets(kind: AssetKind, bundle: KernelBundle, env: AssetEnvironment): (files: seq<string>)
    ensures files == [] || files == [AdministrationAssetPath(kind, bundle.containerPrefix)]
    ensures files != [] <==> env.fileExists(PublicFile(bundle, AdministrationAssetPath(kind, bundle.containerPrefix)))
  {
    var path := AdministrationAssetPath(kind, bundle.containerPrefix);
    if env.fileExists(PublicFile(bundle, path)) then [path] else []
  }

  /** The directory a bundle's public assets are published under. */
  function BundleDirectoryName(name: string): (directory: string)
    ensures forall i :: 0 <= i < |directory| ==> !IsUpper(directory[i])
    ensures EndsWith(ToLower(name), "bundle") ==> directory + "bundle" == ToLower(name)
    ensures !EndsWith(ToLower(name), "bundle") ==> directory == ToLower(name)
  {
    var lower := ToLower(name);
    if EndsWith(lower, "bundle") then
      assert lower[..|lower| - 6] + lower[|lower| - 6..] == lower;
      lower[..|lower| - 6]
    else lower
  }

  const DEFAULT_ENTRY_FILE := "administration/index.html"

  /** The URL the administration loads a plugin from: its truthy admin base URL (neither empty
      nor "0"), else the published entry file if it exists; never one for a non-plugin bundle. */
  function BaseUrl(bundle: KernelBundle, directory: string, env: AssetEnvironment): (url: Option<string>)
    ensures !bundle.kind.Plugin? ==> url == None
    ensures bundle.kind.Plugin? && bundle.kind.adminBaseUrl.Some? && !IsFalsy(bundle.kind.adminBaseUrl.value)
      ==> url == bundle.kind.adminBaseUrl
    ensures bundle.kind.Plugin? && (bundle.kind.adminBaseUrl.None? || IsFalsy(bundle.kind.adminBaseUrl.value))
      ==> url == if env.fileExists(PublicFile(bundle, DEFAULT_ENTRY_FILE))
                 then Some(env.packageUrl(BundleUrl(directory, DEFAULT_ENTRY_FILE))) else None
  {
    match bundle.kind
    case Plugin(adminBaseUrl) =>
      if adminBaseUrl.Some? && !IsFalsy(adminBaseUrl.value) then adminBaseUrl
      else if !env.fileExists(PublicFile(bundle, DEFAULT_ENTRY_FILE)) then None
      else Some(env.packageUrl(BundleUrl(directory, DEFAULT_ENTRY_FILE)))
    case _ => None
  }

  /** An entry of the `bundles` map of the config endpoint. */
  datatype Asset =
    | PluginAsset(css: seq<string>, js: seq<string>, baseUrl: Option<string>)
    | AppAsset(active: bool, integrationId: string, appBaseUrl: string, permissions: Buckets, version: string, name: string)

  function AssetUrls(files: seq<string>, directory: string, env: AssetEnvironment): (urls: seq<string>)
    ensures |urls| == |files|
    ensures forall i :: 0 <= i < |files| ==> urls[i] == env.packageUrl(BundleUrl(directory, files[i]))
  {
    seq(|files|, i requires 0 <= i < |files| => env.packageUrl(BundleUrl(directory, files[i])))
  }

  /** The entry a kernel bundle contributes, if any. */
  function PluginEntry(bundle: KernelBundle, env: AssetEnvironment): (entry: Option<Asset>)
    ensures entry.None? <==>
      bundle.kind.OtherBundle? ||
      (&& AdministrationAssets(Css, bundle, env) == []
       && AdministrationAssets(Js, bundle, env) == []
       && BaseUrl(bundle, BundleDirectoryName(bundle.name), env).None?)
    ensures entry.Some? ==> entry.value.PluginAsset? && |entry.value.css| <= 1 && |entry.value.js| <= 1
    ensures entry.Some? ==>
      var directory := BundleDirectoryName(bundle.name);
      entry.value == PluginAsset(AssetUrls(AdministrationAssets(Css, bundle, env), directory, env),
                                 AssetUrls(AdministrationAssets(Js, bundle, env), directory, env),
                                 BaseUrl(bundle, directory, env))
  {
    if bundle.kind.OtherBundle? then None
    else
      var directory := BundleDirectoryName(bundle.name);
      var styles := AssetUrls(AdministrationAssets(Css, bundle, env), directory, env);
      var scripts := AssetUrls(AdministrationAssets(Js, bundle, env), directory, env);
      var baseUrl := BaseUrl(bundle, directory, env);
      if styles == [] && scripts == [] && baseUrl.None? then None
      else Some(PluginAsset(styles, scripts, baseUrl))
  }

  /** The first loop of `getBundles`: bundle entries keyed by bundle name. */
  function PluginAssets(bundles: seq<KernelBundle>, env: AssetEnvironment): map<string, Asset> {
    if bundles == [] then map[]
    else
      var bundle := bundles[|bundles| - 1];
      var assets := PluginAssets(bundles[..|bundles| - 1], env);
      match PluginEntry(bundle, env)
      case Some(entry) => assets[bundle.name := entry]
      case None => assets
  }

  /** An app's entry: the `(bool)` cast of its active flag and its columns. */
  function AppEntry(app: ActiveApp): (entry: Asset)
    ensures entry.AppAsset? && (entry.active <==> app.active != 0)
    ensures entry.integrationId == app.integrationId && entry.appBaseUrl == app.baseUrl
    ensures entry.permissions == app.privileges && entry.version == app.version && entry.name == app.name
  {
    AppAsset(app.active != 0, app.integrationId, app.baseUrl, app.privileges, app.version, app.name)
  }

  /** The second loop of `getBundles`: app entries keyed by app name, over whatever is there. */
  function WithApps(assets: map<string, Asset>, apps: seq<ActiveApp>): map<string, Asset> {
    if apps == [] then assets
    else
      var app := apps[|apps| - 1];
      WithApps(assets, apps[..|apps| - 1])[app.name := AppEntry(app)]
  }

  /** Bundle `i` has the given name and contributes an entry. */
  predicate ContributesAt(bundles: seq<KernelBundle>, env: AssetEnvironment, name: string, i: int) {
    0 <= i < |bundles| && bundles[i].name == name && PluginEntry(bundles[i], env).Some?
  }

  /** A name is a key exactly when some bundle of that name contributes an entry. */
  lemma {:induction false} PluginAssetsKeys(bundles: seq<KernelBundle>, env: AssetEnvironment, name: string)
    ensures name in PluginAssets(bundles, env) <==> exists i :: ContributesAt(bundles, env, name, i)
  {
    if bundles != [] {
      var front := bundles[..|bundles| - 1];
      var last := |bundles| - 1;
      PluginAssetsKeys(front, env, name);
      if name in PluginAssets(bundles, env) {
        if bundles[last].name == name && PluginEntry(bundles[last], env).Some? {
          assert ContributesAt(bundles, env, name, last);
        } else {
          assert name in PluginAssets(front, env);
          var i :| ContributesAt(front, env, name, i);
          assert bundles[i] == front[i];
          assert ContributesAt(bundles, env, name, i);
        }
      }
      if exists i :: ContributesAt(bundles, env, name, i) {
        var i :| ContributesAt(bundles, env, name, i);
        if i < last {
          assert front[i] == bundles[i];
          assert ContributesAt(front, env, name, i);
        }
      }
    }
  }

  /** Under a name, the entry is the one the last contributing bundle of that name made. */
  lemma {:induction false} PluginAssetsLastBundleWins(bundles: seq<KernelBundle>, env: AssetEnvironment, i: int)
    requires 0 <= i < |bundles| && PluginEntry(bundles[i], env).Some?
    requires forall j :: i < j < |bundles| && bundles[j].name == bundles[i].name ==> PluginEntry(bundles[j], env).None?
    ensures bundles[i].name in PluginAssets(bundles, env)
    ensures PluginAssets(bundles, env)[bundles[i].name] == PluginEntry(bundles[i], env).value
  {
    if i < |bundles| - 1 {
      var front := bundles[..|bundles| - 1];
      assert front[i] == bundles[i];
      forall j | i < j < |front| && front[j].name == front[i].name ensures PluginEntry(front[j], env).None? {
        assert front[j] == bundles[j];
      }
      PluginAssetsLastBundleWins(front, env, i);
    }
  }

  /** Every app gets an app entry under its name, and every other key keeps what the bundles
      put there. */
  lemma {:induction false} WithAppsOverwrites(assets: map<string, Asset>, apps: seq<ActiveApp>)
    ensures forall i :: 0 <= i < |apps| ==>
      apps[i].name in WithApps(assets, apps) && WithApps(assets, apps)[apps[i].name].AppAsset?
    ensures forall k :: (forall i :: 0 <= i < |apps| ==> apps[i].name != k) ==>
      (k in WithApps(assets, apps) <==> k in assets) &&
      (k in assets ==> WithApps(assets, apps)[k] == assets[k])
  {
    if apps != [] {
      var front := apps[..|apps| - 1];
      WithAppsOverwrites(assets, front);
      forall i | 0 <= i < |front| ensures apps[i] == front[i] { }
    }
  }

  /** An app whose name no later app repeats leaves exactly its own entry under that name. */
  lemma {:induction false} WithAppsLastAppWins(assets: map<string, Asset>, apps: seq<ActiveApp>, i: int)
    requires 0 <= i < |apps|
    requires forall j :: i < j < |apps| ==> apps[j].name != apps[i].name
    ensures apps[i].name in WithApps(assets, apps)
    ensures WithApps(assets, apps)[apps[i].name] == AppEntry(apps[i])
  {
    if i < |apps| - 1 {
      var front := apps[..|apps| - 1];
      assert front[i] == apps[i];
      forall j | i < j < |front| ensures front[j].name != front[i].name {
        assert front[j] == apps[j];
      }
      WithAppsLastAppWins(assets, front, i);
      assert apps[|apps| - 1].name != apps[i].name;
    }
  }

  /** Entries of listed apps always say they are active. */
  lemma {:induction false} AppEntriesActive(assets: map<string, Asset>, apps: seq<ActiveApp>)
    requires forall k :: k in assets ==> assets[k].PluginAsset?
    requires forall a :: a in apps ==> a.active == 1
    ensures forall k :: k in WithApps(assets, apps) && WithApps(assets, apps)[k].AppAsset? ==> WithApps(assets, apps)[k].active
  {
    if apps != [] {
      var front := apps[..|apps| - 1];
      assert forall a :: a in front ==> a in apps;
      AppEntriesActive(assets, front);
      assert apps[|apps| - 1] in apps;
    }
  }

  /** The `bundles` map of the config endpoint. */
  method GetBundles(bundles: seq<KernelBundle>, appTable: seq<AppRow>, env: AssetEnvironment)
    returns (assets: map<string, Asset>)
    ensures assets == WithApps(PluginAssets(bundles, env), ActiveApps(appTable))
  {
    assets := map[];
    for i := 0 to |bundles|
      invariant assets == PluginAssets(bundles[..i], env)
    {
      assert bundles[..i + 1][..i] == bundles[..i];
      var bundle := bundles[i];
      if bundle.kind.OtherBundle? {
        continue;
      }
      var directory := BundleDirectoryName(bundle.name);
      var styles := AssetUrls(AdministrationAssets(Css, bundle, env), directory, env);
      var scripts := AssetUrls(AdministrationAssets(Js, bundle, env), directory, env);
      var baseUrl := BaseUrl(bundle, directory, env);
      if styles == [] && scripts == [] {
        if baseUrl.None? {
          continue;
        }
      }
      assets := assets[bundle.name := PluginAsset(styles, scripts, baseUrl)];
    }
    assert bundles[..|bundles|] == bundles;

    var apps := GetActiveApps(appTable);
    ghost var plugins := assets;
    for j := 0 to |apps|
      invariant assets == WithApps(plugins, apps[..j])
    {
      assert apps[..j + 1][..j] == apps[..j];
      assets := assets[apps[j].name := AppEntry(apps[j])];
    }
    assert apps[..|apps|] == apps;
  }

  /** Over the whole config map: plugin entries are kept unless an app of the same name
      overwrites them, and every app entry is active. */
  lemma BundlesMapShape(bundles: seq<KernelBundle>, appTable: seq<AppRow>, env: AssetEnvironment)
    ensures var apps := ActiveApps(appTable);
            var result := WithApps(PluginAssets(bundles, env), apps);
            && (forall i :: 0 <= i < |apps| ==> apps[i].name in result && result[apps[i].name].AppAsset?)
            && (forall k :: k in result && result[k].AppAsset? ==> result[k].active)
  {
    var plugins := PluginAssets(bundles, env);
    PluginAssetsArePlugins(bundles, env);
    WithAppsOverwrites(plugins, ActiveApps(appTable));
    AppEntriesActive(plugins, ActiveApps(appTable));
  }

  lemma {:induction false} PluginAssetsArePlugins(bundles: seq<KernelBundle>, env: AssetEnvironment)
    ensures forall k :: k in PluginAssets(bundles, env) ==> PluginAssets(bundles, env)[k].PluginAsset?
  {
    if bundles != [] {
      PluginAssetsArePlugins(bundles[..|bundles| - 1], env);
    }
  }

  // ---------------------------------------------------------------------------------------
  // Queue statistics
  // ---------------------------------------------------------------------------------------

  /** An entry of the message-queue increment pool. */
  datatype QueueEntry = QueueEntry(key: string, count: int)

  datatype QueueStat = QueueStat(name: string, size: int)

  /** `None` is a registry without the message-queue pool. */
  function QueueStats(gateway: Option<seq<QueueEntry>>): (stats: seq<QueueStat>)
    ensures gateway.None? ==> stats == []
    ensures gateway.Some? ==> (
      && |stats| == |gateway.value|
      && forall i :: 0 <= i < |stats| ==>
           stats[i].name == gateway.value[i].key && stats[i].size == gateway.value[i].count)
  {
    match gateway
    case None => []
    case Some(entries) => seq(|entries|, i requires 0 <= i < |entries| => QueueStat(entries[i].key, entries[i].count))
  }

  // ---------------------------------------------------------------------------------------
  // Content-Security-Policy of the API browser page
  // ---------------------------------------------------------------------------------------

  const NONCE_PLACEHOLDER := "%nonce%"

  predicate IsLineBreak(c: char) {
    c == '\n' || c == '\r'
  }

  /** Both line-break characters turned into spaces, position by position. */
  function FlattenLineBreaks(csp: string): (flat: string)
    ensures |flat| == |csp|
    ensures forall i :: 0 <= i < |csp| ==> flat[i] == (if IsLineBreak(csp[i]) then ' ' else csp[i])
  {
    var withoutLf := StrReplace(csp, "\n", " ");
    StrReplaceOneChar(csp, '\n', ' ');
    StrReplaceOneChar(withoutLf, '\r', ' ');
    StrReplace(withoutLf, "\r", " ")
  }

  /** A string without line breaks is left as it is. */
  lemma FlattenWithoutLineBreaks(csp: string)
    requires forall i :: 0 <= i < |csp| ==> !IsLineBreak(csp[i])
    ensures FlattenLineBreaks(csp) == csp
  {
  }

  /** The header value for a configured template (`None` when none is configured) and the
      request's nonce (`None` when the attribute is missing, which `str_replace` turns into the
      empty string as PHP 7.4 does); `None` means no header is set. */
  function CspHeader(template: Option<string>, nonce: Option<string>): (header: Option<string>)
    ensures header.None? <==> Trim(template.GetOr("")) == ""
    ensures header.Some? ==>
      header.value == FlattenLineBreaks(StrReplace(Trim(template.GetOr("")), NONCE_PLACEHOLDER, nonce.GetOr("")))
    ensures header.Some? ==> '\n' !in header.value && '\r' !in header.value
  {
    var trimmed := Trim(template.GetOr(""));
    if trimmed == "" then None
    else
      var flat := FlattenLineBreaks(StrReplace(trimmed, NONCE_PLACEHOLDER, nonce.GetOr("")));
      assert forall i :: 0 <= i < |flat| ==> !IsLineBreak(flat[i]);
      Some(flat)
  }

  /** A template with no placeholder and no line break is sent as it is, trimmed. */
  lemma {:induction false} CspPlainTemplate(template: string, nonce: Option<string>)
    requires !Contains(Trim(template), NONCE_PLACEHOLDER)
    requires forall i :: 0 <= i < |Trim(template)| ==> !IsLineBreak(Trim(template)[i])
    requires Trim(template) != ""
    ensures CspHeader(Some(template), nonce) == Some(Trim(template))
  {
    StrReplaceAbsent(Trim(template), NONCE_PLACEHOLDER, nonce.GetOr(""));
    FlattenWithoutLineBreaks(Trim(template));
  }

  /** With one placeholder in the trimmed template, the nonce takes its place: the header is the
      text before it, the nonce and the text after it, with line breaks flattened. */
  lemma {:induction false} CspNonceSubstituted(template: string, nonce: string, before: string, after: string)
    requires Trim(template) == before + NONCE_PLACEHOLDER + after
    requires forall i :: 0 <= i < |before| ==> !OccursAt(Trim(template), NONCE_PLACEHOLDER, i)
    requires !Contains(after, NONCE_PLACEHOLDER)
    ensures CspHeader(Some(template), Some(nonce)) == Some(FlattenLineBreaks(before + nonce + after))
  {
    StrReplaceAt(before, NONCE_PLACEHOLDER, after, nonce);
    StrReplaceAbsent(after, NONCE_PLACEHOLDER, nonce);
  }

  // ---------------------------------------------------------------------------------------
  // Endpoint guards
  // ---------------------------------------------------------------------------------------

  /** The API type asked for when the `type` query parameter is absent. */
  const DEFAULT_API_TYPE := "jsonapi"

  datatype RequestError = InvalidRequestParameter(name: string)

  /** The OpenAPI endpoint's guard: the letters of the `type` parameter must name an API type. */
  function Info<T>(typeParameter: Option<string>, toApiType: string -> Option<T>): (r: Result<T, RequestError>)
    ensures r.Failure? <==> toApiType(KeepLetters(typeParameter.GetOr(DEFAULT_API_TYPE))).None?
    ensures r.Failure? ==> r.error == InvalidRequestParameter("type")
    ensures r.Success? ==> toApiType(KeepLetters(typeParameter.GetOr(DEFAULT_API_TYPE))) == Some(r.value)
  {
    match toApiType(KeepLetters(typeParameter.GetOr(DEFAULT_API_TYPE)))
    case None => Failure(InvalidRequestParameter("type"))
    case Some(apiType) => Success(apiType)
  }

  /** The flow-action endpoint: nothing without a configured collector. */
  function FlowActions<C, A>(collector: Option<C -> seq<A>>, context: C): (actions: seq<A>)
    ensures collector.None? ==> actions == []
    ensures collector.Some? ==> actions == collector.value(context)
  {
    match collector
    case None => []
    case Some(collect) => collect(context)
  }
}
