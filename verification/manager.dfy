/**
 * The manager (`Manager` in src/manager.js): the older, in-page counterpart of the
 * worker. It keeps the same per-channel layers, but reads storage as the in-memory
 * test store answers it (a key never written reads `null`), files IITC's code as
 * `iitc_code`, and takes the channel from storage at every check.
 *
 * As for the worker, every operation reads the record `storage.get` answered and
 * returns the objects it hands to `storage.set`; the clock, the network and the
 * timers are parameters.
 */
module Manager {
  import opened Wrappers
  import opened Json
  import opened Storage
  import opened Catalog
  import opened Channels
  import opened Schedule
  import Worker

  // ---------------------------------------------------------------------------
  // Settings

  /** The hosts of the four channels the manager knows. */
  const DefaultHosts: Record := map[
    "release" := Str("https://iitc.app/build/release"),
    "beta" := Str("https://iitc.app/build/beta"),
    "test" := Str("https://iitc.app/build/test"),
    "local" := Str("http://localhost:8000")]

  /** What the manager keeps between calls: the channel, the hosts by channel, and whether it runs as a daemon. */
  datatype State = State(channel: Value, hosts: Record, daemon: Value)

  /** The configuration the manager is created with; `None` leaves the default. */
  datatype Config = Config(networkHost: Option<Record>, isDaemon: Option<Value>)

  /** A new manager: the release channel, the configured or default hosts, a daemon unless configured otherwise. */
  function Create(config: Config): State {
    State(Str("release"), config.networkHost.GetOr(DefaultHosts), config.isDaemon.GetOr(Bool(true)))
  }

  /** The channel's name as it appears in storage keys. */
  function Name(s: State): string {
    JsString(s.channel)
  }

  /** The storage key of the current channel's `field`. */
  function Key(s: State, field: string): string {
    ChannelKey(Name(s), field)
  }

  /** The host of the current channel, as it is spliced into a URL. */
  function Host(s: State): string {
    JsStringOpt(Get(s.hosts, Name(s)))
  }

  /** `#save`: the object handed to `storage.set` for the current channel. */
  function SaveOptions(s: State, options: Record): (data: Record)
    requires options.Keys <= ManagerFields || options.Keys !! ManagerFields
    ensures forall o :: o in options && o in ManagerFields ==> Key(s, o) in data && data[Key(s, o)] == options[o]
    ensures forall o :: o in options && o !in ManagerFields ==> o in data && data[o] == options[o]
    ensures forall k :: k in data ==> exists o :: o in options && StorageKey(ManagerFields, Name(s), o) == k
  {
    FieldsSaveDistinct(ManagerFields, Name(s), options);
    Channels.Save(ManagerFields, Name(s), options)
  }

  /**
   * The two components file IITC's code differently: the manager's `iitc_code` goes
   * under the channel, while the worker would save a key of that name as it is.
   */
  lemma CodeKeyDiffers(s: State, code: Value)
    ensures SaveOptions(s, map["iitc_code" := code]) == map[Key(s, "iitc_code") := code]
    ensures Channels.Save(WorkerFields, Name(s), map["iitc_code" := code]) == map["iitc_code" := code]
  {
    SaveOne(ManagerFields, Name(s), "iitc_code", code);
    SaveOne(WorkerFields, Name(s), "iitc_code", code);
    CodeFieldIsTheManagers();
  }

  lemma CodeFieldIsTheManagers()
    ensures "iitc_code" in ManagerFields && "iitc_code" !in WorkerFields
  {
  }

  /**
   * What every check takes from storage first: a stored channel replaces the
   * current one, and a stored local server host replaces the host of 'local'.
   */
  function Adopt(s: State, local: Record): State {
    var hosts := if TruthyOpt(Get(local, "local_server_host"))
      then s.hosts["local" := Str("http://" + JsString(local["local_server_host"]))]
      else s.hosts;
    AdoptChannel(s, local).(hosts := hosts)
  }

  /** What the check of the user scripts takes from storage: only a stored channel. */
  function AdoptChannel(s: State, local: Record): (t: State)
    ensures t.hosts == s.hosts && t.daemon == s.daemon
    ensures TruthyOpt(Get(local, "channel")) ==> t.channel == local["channel"]
    ensures !TruthyOpt(Get(local, "channel")) ==> t == s
  {
    if TruthyOpt(Get(local, "channel")) then s.(channel := local["channel"]) else s
  }

  /** Once the stored settings are adopted, adopting them again changes nothing. */
  lemma AdoptIdempotent(s: State, local: Record)
    ensures Adopt(Adopt(s, local), local) == Adopt(s, local)
  {
  }

  // ---------------------------------------------------------------------------
  // When to check (`checkUpdates`)

  /** The catalogue's check interval: five seconds on the 'local' channel, otherwise as for the worker. */
  function CatalogueInterval(s: State, local: Record): int {
    if s.channel == Str("local") then 5 else IntervalSeconds(Get(local, Key(s, "update_check_interval")))
  }

  /**
   * The decision of `checkUpdates`: only a Last-Modified value or a time of the last
   * check that reads `null` counts as missing; an undefined one does not, and an
   * undefined time of the last check is never due.
   */
  function PlanCheckUpdates(s: State, local: Record, now: int, force: bool, header: Option<string>, pending: bool): (p: Plan)
    ensures var t := Adopt(s, local);
      var lm := Get(local, Key(t, "last_modified"));
      var lc := Get(local, "last_check_update");
      && (p.branch.Initial? <==> lm == Some(Null) || lc == Some(Null))
      && (p.branch.HeaderCheck? <==> !p.branch.Initial? && (force || Due(now, p.interval, lc)))
      && (p.branch.Initial? ==> p.refresh && p.lastModified == Null)
      && (p.branch.HeaderCheck? ==> p.lastModified == Answer(header) && (p.refresh <==> force || !SameAsStored(Answer(header), lm)))
      && (p.branch.NotDue? ==> !p.refresh)
    ensures p.interval == CatalogueInterval(Adopt(s, local), local)
    ensures Adopt(s, local).channel == Str("local") ==> p.interval == 5
    ensures p.stamp <==> !p.branch.NotDue? || !pending
    ensures p.reschedule <==> p.stamp && Truthy(s.daemon)
  {
    var t := Adopt(s, local);
    var interval := CatalogueInterval(t, local);
    var lm := Get(local, Key(t, "last_modified"));
    var lc := Get(local, "last_check_update");
    PlanCheck(lm == Some(Null) || lc == Some(Null), Due(now, interval, lc), force, header, lm, interval, pending, Truthy(t.daemon))
  }

  /**
   * When both stored values are present (as the test store always answers), the
   * manager decides as the worker does on any channel but 'local'.
   */
  lemma CheckDecisionsAgree(s: State, local: Record, now: int, force: bool, header: Option<string>, pending: bool)
    requires Adopt(s, local).channel.Str? && Adopt(s, local).channel != Str("local")
    requires Get(local, Key(Adopt(s, local), "last_modified")).Some? && Get(local, "last_check_update").Some?
    ensures PlanCheckUpdates(s, local, now, force, header, pending)
         == Worker.PlanInternal(local, Adopt(s, local).channel.s, now, force, header, pending, Truthy(s.daemon))
  {
  }

  /**
   * A store that never saved anything and answers with the keys it has (a browser
   * store): the manager's first check downloads nothing unless it is forced, where
   * the worker would download at once.
   */
  lemma FreshBrowserStoreWaitsForForce(s: State, keys: seq<string>, now: int, header: Option<string>, pending: bool)
    ensures !PlanCheckUpdates(s, BrowserGet(map[], keys), now, false, header, pending).refresh
    ensures PlanCheckUpdates(s, BrowserGet(map[], keys), now, true, header, pending).branch.HeaderCheck?
    ensures Worker.PlanInternal(BrowserGet(map[], keys), Name(s), now, false, header, pending, Truthy(s.daemon)).refresh
  {
    assert BrowserGet(map[], keys) == map[];
  }

  // ---------------------------------------------------------------------------
  // Downloading the catalogue (`#downloadMeta`)

  /** A layer as the manager takes it: `null` becomes an empty layer, `undefined` stays undefined. */
  function NullAsEmpty(v: Option<Value>): (r: Option<Plugins>)
    requires LayerOrUnset(v)
    ensures r.None? <==> v.None?
    ensures r.Some? ==> r.value == StoredLayer(v).GetOr(map[])
  {
    match v
    case None => None
    case Some(x) => if x == Null then Some(map[]) else Some(AsPlugins(x))
  }

  /**
   * `#updateLocalPlugins`: as the worker's refresh, except that an undefined layer
   * is a TypeError (`Object.keys(undefined)`); only `null` means nothing installed.
   */
  function UpdateLocal(flat: Plugins, stored: Option<Value>, host: string, fetch: Fetch): (r: Result<Plugins, string>)
    requires LayerOrUnset(stored)
    ensures r.Err? <==> stored.None?
    ensures r.Ok? ==> r.value == UpdateLocalPlugins(flat, StoredLayer(stored), host, fetch)
  {
    match NullAsEmpty(stored)
    case None => Err("TypeError")
    case Some(l) => if stored == Some(Null) then Ok(map[]) else Ok(UpdateLocalPlugins(flat, StoredLayer(stored), host, fetch))
  }

  /** The flat list without the keys 'Obsolete' and 'Deleted'. */
  function DropRetired(raw: Plugins): (r: Plugins)
    ensures forall k :: k in r <==> k in raw && !Retired(k)
    ensures forall k :: k in r ==> r[k] == raw[k]
  {
    map k | k in raw && !Retired(k) :: raw[k]
  }

  /**
   * `#rebuildingArrayCategoriesPlugins`: the worker's merge on the flat list without
   * the keys 'Obsolete' and 'Deleted'; a `null` user layer is empty, an undefined
   * one is a TypeError.
   */
  function RebuildPlugins(raw: Plugins, local: Plugins, user: Option<Value>): (r: Result<Merged, string>)
    requires LayerOrUnset(user)
    ensures r.Ok? <==> user.Some? && local.Keys <= DropRetired(raw).Keys
    ensures r.Ok? ==> r == MergeLayers(DropRetired(raw), local, StoredLayer(user).GetOr(map[]))
  {
    match NullAsEmpty(user)
    case None => Err("TypeError")
    case Some(u) => MergeLayers(DropRetired(raw), local, u)
  }

  /**
   * Without keys named 'Obsolete' or 'Deleted' in the flat list, and with a user
   * layer that is stored (as an object or `null`), the manager merges exactly as the
   * worker does.
   */
  lemma RebuildAgreesWithWorker(raw: Plugins, local: Plugins, user: Option<Value>)
    requires forall k :: k in raw ==> !Retired(k)
    requires LayerOrUnset(user) && user.Some?
    ensures RebuildPlugins(raw, local, user) == MergeLayers(raw, local, StoredLayer(user).GetOr(map[]))
  {
    assert DropRetired(raw) == raw;
  }

  /**
   * The deletions in the merge never remove anything: the flat list is keyed by
   * uid, and a uid is never 'Obsolete' or 'Deleted'. A plugin of the catalogue's
   * 'Obsolete' category therefore stays in the manager's flat list, where the
   * worker drops it.
   */
  lemma RetiredPluginsStayListed(c: Catalogue, k: nat, j: nat)
    requires c.categories.Some? && k < |c.categories.value|
    requires c.categories.value[k].name == "Obsolete"
    requires c.categories.value[k].plugins.Some? && j < |c.categories.value[k].plugins.value|
    ensures UidKey(c.categories.value[k].plugins.value[j]) in DropRetired(PluginsFlat(c, false))
    ensures forall uid :: uid in PluginsFlat(c, true) ==> PluginsFlat(c, true)[uid]["category"] != Str("Obsolete")
  {
    var cs := c.categories.value;
    var p := cs[k].plugins.value[j];
    EntriesCover(cs, false, k, j);
    var es := Entries(cs, false);
    var i :| 0 <= i < |es| && es[i] == (UidKey(p), Stamp(p, "Obsolete"));
    assert es[i].0 == UidKey(p);
    UidKeyNotRetired(p);
  }

  /** The stored layers of the current channel are objects or unset. */
  predicate LayersOk(s: State, local: Record) {
    LayerOrUnset(Get(local, Key(s, "plugins_local"))) && LayerOrUnset(Get(local, Key(s, "plugins_user")))
  }

  /** The plugins task before saving: the refreshed installed plugins and the merged layers. */
  datatype Refreshed = Refreshed(installed: Plugins, merged: Merged)

  /**
   * The plugins task of `#downloadMeta` on a downloaded catalogue, with whether the
   * flat list skips the retired categories as a parameter: both layers must be
   * stored (as objects or `null`), or it fails with a TypeError. The installed layer
   * is refreshed against the flat list, then the layers are merged on it.
   */
  function RefreshWith(s: State, local: Record, c: Catalogue, fetch: Fetch, skipRetired: bool): (r: Result<Refreshed, string>)
    requires LayersOk(s, local)
    ensures r.Ok? <==> Get(local, Key(s, "plugins_local")).Some? && Get(local, Key(s, "plugins_user")).Some?
    ensures r.Ok? ==> r.value.installed.Keys <= PluginsFlat(c, skipRetired).Keys
    ensures r.Ok? ==> r.value.merged.flat.Keys
                      == PluginsFlat(c, skipRetired).Keys + StoredLayer(Get(local, Key(s, "plugins_user"))).GetOr(map[]).Keys
  {
    var raw := PluginsFlat(c, skipRetired);
    match UpdateLocal(raw, Get(local, Key(s, "plugins_local")), Host(s), fetch)
    case Err(e) => Err(e)
    case Ok(installed) =>
      assert DropRetired(raw) == raw;
      match RebuildPlugins(raw, installed, Get(local, Key(s, "plugins_user")))
      case Err(e) => Err(e)
      case Ok(m) => Ok(Refreshed(installed, m))
  }

  /**
   * The plugins task as written: `#getPluginsFlat` keeps the 'Obsolete' and 'Deleted'
   * categories, and the later deletions remove nothing (see `RetiredPluginsStayListed`).
   */
  function RefreshPlugins(s: State, local: Record, c: Catalogue, fetch: Fetch): Result<Refreshed, string>
    requires LayersOk(s, local)
  {
    RefreshWith(s, local, c, fetch, false)
  }

  /** The plugins task with the flat list built without the retired categories, as the worker builds it. */
  function RefreshPluginsFixed(s: State, local: Record, c: Catalogue, fetch: Fetch): Result<Refreshed, string>
    requires LayersOk(s, local)
  {
    RefreshWith(s, local, c, fetch, true)
  }

  /**
   * As written, a plugin of the catalogue's 'Obsolete' category is listed in the
   * flat list a refresh saves; with the fix no listed catalogue plugin comes from a
   * retired category.
   */
  lemma RefreshListsRetired(s: State, local: Record, c: Catalogue, fetch: Fetch, k: nat, j: nat)
    requires LayersOk(s, local)
    requires Get(local, Key(s, "plugins_local")).Some? && Get(local, Key(s, "plugins_user")).Some?
    requires c.categories.Some? && k < |c.categories.value|
    requires c.categories.value[k].name == "Obsolete"
    requires c.categories.value[k].plugins.Some? && j < |c.categories.value[k].plugins.value|
    ensures RefreshPlugins(s, local, c, fetch).Ok?
    ensures UidKey(c.categories.value[k].plugins.value[j]) in RefreshPlugins(s, local, c, fetch).value.merged.flat
    ensures forall uid :: uid in PluginsFlat(c, true) ==> PluginsFlat(c, true)[uid]["category"] != Str("Obsolete")
  {
    RetiredPluginsStayListed(c, k, j);
  }

  /** The user layer as it is saved: `null` stays `null` (the merge worked on a fresh empty layer). */
  function SavedUser(stored: Value, merged: Merged): Value {
    if stored == Null then Null else LayerValue(merged.user)
  }

  /** The object the plugins task hands to `#save`. */
  function PluginOptions(r: Refreshed, categories: Record, lastModified: Value, version: Option<Value>, user: Value): (o: Record)
    ensures o.Keys <= ManagerFields && "iitc_code" !in o
    ensures Get(o, "last_modified") == Some(lastModified)
    ensures Get(o, "categories") == Some(Obj(categories))
    ensures Get(o, "plugins_flat") == Some(LayerValue(r.merged.flat))
    ensures Get(o, "plugins_local") == Some(LayerValue(r.installed))
    ensures Get(o, "plugins_user") == Some(user)
    ensures Get(o, "iitc_version") == version
  {
    SetOpt(map[], "iitc_version", version)
      ["last_modified" := lastModified]
      ["categories" := Obj(categories)]
      ["plugins_flat" := LayerValue(r.merged.flat)]
      ["plugins_local" := LayerValue(r.installed)]
      ["plugins_user" := user]
  }

  /** What a download saved, and whether it failed. */
  datatype Download = Download(writes: seq<Record>, failed: bool)

  /** The object the IITC task saves: the downloaded script, as text, under the channel. */
  function CodeWrites(s: State, fetch: Fetch): (ws: seq<Record>)
    ensures var code := fetch(Worker.CoreUrl(Host(s)));
      ws == if Fetched(code) then [map[Key(s, "iitc_code") := Str(code.value)]] else []
  {
    var code := fetch(Worker.CoreUrl(Host(s)));
    if Fetched(code) then
      SaveOne(ManagerFields, Name(s), "iitc_code", Str(code.value));
      [SaveOptions(s, map["iitc_code" := Str(code.value)])]
    else []
  }

  /**
   * `#downloadMeta(local, last_modified)`: nothing when the catalogue could not be
   * downloaded; otherwise IITC's script is saved as it is, and the plugin layers
   * after the refresh. The plugins task fails when a layer is undefined.
   */
  function DownloadMeta(s: State, local: Record, lastModified: Value, catalogue: Option<Catalogue>, fetch: Fetch): (d: Download)
    requires catalogue.Some? ==> WellFormed(catalogue.value)
    requires LayersOk(s, local)
    ensures catalogue.None? ==> d == Download([], false)
    ensures d.failed <==> catalogue.Some? && RefreshPlugins(s, local, catalogue.value, fetch).Err?
  {
    match catalogue
    case None => Download([], false)
    case Some(c) =>
      var core := CodeWrites(s, fetch);
      match RefreshPlugins(s, local, c, fetch)
      case Err(_) => Download(core, true)
      case Ok(r) =>
        var o := PluginOptions(r, Categories(c), lastModified, Get(c.fields, "iitc_version"), SavedUser(local[Key(s, "plugins_user")], r.merged));
        Download(core + [SaveOptions(s, o)], false)
  }

  /**
   * A download saves IITC's code, then, when the plugins merge, the catalogue's
   * categories, the merged layers and the Last-Modified value in one object, which
   * never holds the code's key: the two writes commute.
   */
  lemma DownloadMetaWrites(s: State, local: Record, lastModified: Value, c: Catalogue, fetch: Fetch)
    requires WellFormed(c)
    requires LayersOk(s, local)
    ensures var d := DownloadMeta(s, local, lastModified, Some(c), fetch);
      |CodeWrites(s, fetch)| <= |d.writes| && d.writes[..|CodeWrites(s, fetch)|] == CodeWrites(s, fetch)
    ensures var d := DownloadMeta(s, local, lastModified, Some(c), fetch);
      !d.failed ==>
      var r := RefreshPlugins(s, local, c, fetch).value;
      && |d.writes| == |CodeWrites(s, fetch)| + 1
      && d.writes[|d.writes| - 1] == SaveOptions(s, PluginOptions(r, Categories(c), lastModified, Get(c.fields, "iitc_version"),
                                                            SavedUser(local[Key(s, "plugins_user")], r.merged)))
    ensures var d := DownloadMeta(s, local, lastModified, Some(c), fetch);
      !d.failed ==> Key(s, "iitc_code") !in d.writes[|d.writes| - 1]
  {
    var d := DownloadMeta(s, local, lastModified, Some(c), fetch);
    var core := CodeWrites(s, fetch);
    if !d.failed {
      var r := RefreshPlugins(s, local, c, fetch).value;
      var o := PluginOptions(r, Categories(c), lastModified, Get(c.fields, "iitc_version"), SavedUser(local[Key(s, "plugins_user")], r.merged));
      assert d.writes == core + [SaveOptions(s, o)];
      if Key(s, "iitc_code") in SaveOptions(s, o) {
        var f :| f in o && StorageKey(ManagerFields, Name(s), f) == Key(s, "iitc_code");
        ChannelKeyInjective(Name(s), f, Name(s), "iitc_code");
        assert false;
      }
    } else {
      assert d.writes == core;
    }
  }

  /**
   * On a store that answers with the keys it has, a manager that never downloaded
   * anything fails its first download: the layers read `undefined`.
   */
  lemma FirstDownloadFailsOnBrowserStore(s: State, keys: seq<string>, lastModified: Value, c: Catalogue, fetch: Fetch)
    requires WellFormed(c)
    ensures DownloadMeta(s, BrowserGet(map[], keys), lastModified, Some(c), fetch).failed
  {
    assert BrowserGet(map[], keys) == map[];
  }

  /**
   * On the test store, where every layer never written reads `null`, the first
   * download succeeds and leaves the user layer `null`.
   */
  lemma FirstDownloadOnTestStore(s: State, keys: seq<string>, lastModified: Value, c: Catalogue, fetch: Fetch)
    requires WellFormed(c)
    requires Key(s, "plugins_local") in keys && Key(s, "plugins_user") in keys
    ensures var d := DownloadMeta(s, ReadKeys(map[], keys), lastModified, Some(c), fetch);
      && !d.failed
      && Get(d.writes[|d.writes| - 1], Key(s, "plugins_user")) == Some(Null)
  {
    var local := ReadKeys(map[], keys);
    assert Get(local, Key(s, "plugins_local")) == Some(Null);
    assert Get(local, Key(s, "plugins_user")) == Some(Null);
    DownloadMetaWrites(s, local, lastModified, c, fetch);
    var r := RefreshPlugins(s, local, c, fetch).value;
    var o := PluginOptions(r, Categories(c), lastModified, Get(c.fields, "iitc_version"), Null);
    assert "plugins_user" in ManagerFields;
  }

  // ---------------------------------------------------------------------------
  // One round of checks

  /**
   * `checkUpdates(force)` on the answer of `storage.get`: the settings adopted, the
   * plan, the download when the plan asks for one, and the time of the check. A
   * failed download rejects the round, so the time is not saved and nothing is
   * scheduled; the timer runs `checkUpdates` again.
   */
  function CheckUpdates(s: State, local: Record, now: int, force: bool, pending: bool,
                        header: Option<string>, catalogue: Option<Catalogue>, fetch: Fetch): (r: (State, Round))
    requires catalogue.Some? ==> WellFormed(catalogue.value)
    requires LayersOk(Adopt(s, local), local)
    ensures r.0 == Adopt(s, local)
    ensures r.1.pending <==> PlanCheckUpdates(s, local, now, force, header, pending).branch.NotDue? && pending
    ensures r.1.scheduled.Some? ==> r.1.scheduled.value == CatalogueCheck
  {
    var t := Adopt(s, local);
    var p := PlanCheckUpdates(s, local, now, force, header, pending);
    var d := if p.refresh then DownloadMeta(t, local, p.lastModified, catalogue, fetch) else Download([], false);
    (t, CheckRound(p, d, now))
  }

  /** The round a check leaves once its plan and its download are known. */
  function CheckRound(p: Plan, d: Download, now: int): (r: Round)
    ensures r.failed == d.failed
    ensures r.pending <==> !p.stamp
    ensures !d.failed && p.stamp ==> |r.writes| > 0 && r.writes[|r.writes| - 1] == map["last_check_update" := Num(now)]
    ensures r.scheduled.Some? <==> !d.failed && p.reschedule
    ensures r.scheduled.Some? ==> r.scheduled.value == CatalogueCheck
  {
    var stamp := if p.stamp && !d.failed then [map["last_check_update" := Num(now)]] else [];
    Round(d.writes + stamp, d.failed, !p.stamp, if p.reschedule && !d.failed then Some(CatalogueCheck) else None)
  }

  /** Without a download (none planned, or the catalogue could not be fetched) a check saves at most its time. */
  lemma CheckUpdatesWithoutDownload(s: State, local: Record, now: int, force: bool, pending: bool,
                                    header: Option<string>, catalogue: Option<Catalogue>, fetch: Fetch)
    requires catalogue.Some? ==> WellFormed(catalogue.value)
    requires LayersOk(Adopt(s, local), local)
    requires !PlanCheckUpdates(s, local, now, force, header, pending).refresh || catalogue.None?
    ensures var p := PlanCheckUpdates(s, local, now, force, header, pending);
      var round := CheckUpdates(s, local, now, force, pending, header, catalogue, fetch).1;
      && !round.failed
      && round.writes == (if p.stamp then [map["last_check_update" := Num(now)]] else [])
      && (round.scheduled.Some? <==> p.reschedule)
  {
  }

  /** A check fails exactly when it downloads the catalogue and the plugins cannot be merged. */
  lemma CheckUpdatesFails(s: State, local: Record, now: int, force: bool, pending: bool,
                          header: Option<string>, catalogue: Option<Catalogue>, fetch: Fetch)
    requires catalogue.Some? ==> WellFormed(catalogue.value)
    requires LayersOk(Adopt(s, local), local)
    ensures var p := PlanCheckUpdates(s, local, now, force, header, pending);
      var round := CheckUpdates(s, local, now, force, pending, header, catalogue, fetch).1;
      && (round.failed <==> p.refresh && catalogue.Some? && RefreshPlugins(Adopt(s, local), local, catalogue.value, fetch).Err?)
      && (!round.failed && p.stamp ==> |round.writes| > 0 && round.writes[|round.writes| - 1] == map["last_check_update" := Num(now)])
      && (round.scheduled.Some? <==> !round.failed && p.reschedule)
  {
  }

  /**
   * `#checkExternalUpdates(force)`, with the check its timer runs and the field the
   * new code is downloaded from as parameters: the stored channel is adopted; when
   * the interval has passed or the check is forced, the user scripts are updated and
   * saved if any changed; without a pending timer the time is saved and, for a
   * daemon, a timer set.
   */
  function ExternalRound(s: State, local: Record, now: int, force: bool, pending: bool, hash: string, fetch: Fetch,
                         timer: Task, codeField: string): (r: (State, Round))
    requires LayerOrUnset(Get(local, Key(AdoptChannel(s, local), "plugins_user")))
    ensures r.0 == AdoptChannel(s, local)
    ensures var interval := IntervalSeconds(Get(local, "external_update_check_interval"));
      var run := force || Due(now, interval, Get(local, "last_check_external_update"));
      var updated := if run then UpdateExternalWith(StoredLayer(Get(local, Key(r.0, "plugins_user"))), hash, fetch, codeField) else None;
      var round := r.1;
      && !round.failed
      && (round.pending <==> pending && !run)
      && (round.scheduled.Some? <==> !round.pending && Truthy(s.daemon))
      && (round.scheduled.Some? ==> round.scheduled.value == timer)
      && round.writes == (if updated.Some? then [map[Key(r.0, "plugins_user") := LayerValue(updated.value)]] else [])
                       + (if round.pending then [] else [map["last_check_external_update" := Num(now)]])
  {
    var t := AdoptChannel(s, local);
    var interval := IntervalSeconds(Get(local, "external_update_check_interval"));
    var run := force || Due(now, interval, Get(local, "last_check_external_update"));
    var updated := if run then UpdateExternalWith(StoredLayer(Get(local, Key(t, "plugins_user"))), hash, fetch, codeField) else None;
    var saved := if updated.None? then [] else [SaveUserScripts(t, updated.value)];
    var stillPending := pending && !run;
    var stamp := if !stillPending then [map["last_check_external_update" := Num(now)]] else [];
    (t, Round(saved + stamp, false, stillPending, if !stillPending && Truthy(t.daemon) then Some(timer) else None))
  }

  /** The object saving the user scripts of the current channel. */
  function SaveUserScripts(s: State, user: Plugins): (w: Record)
    ensures w == map[Key(s, "plugins_user") := LayerValue(user)]
  {
    SaveOne(ManagerFields, Name(s), "plugins_user", LayerValue(user));
    SaveOptions(s, map["plugins_user" := LayerValue(user)])
  }

  /**
   * `#checkExternalUpdates` as written: its timer runs `checkUpdates`, the check of
   * the catalogue, and the new code is fetched from `updateURL` again.
   */
  function CheckExternalUpdates(s: State, local: Record, now: int, force: bool, pending: bool, hash: string, fetch: Fetch): (State, Round)
    requires LayerOrUnset(Get(local, Key(AdoptChannel(s, local), "plugins_user")))
  {
    ExternalRound(s, local, now, force, pending, hash, fetch, CatalogueCheck, "updateURL")
  }

  /** `#checkExternalUpdates` with its timer running the check of the user scripts again. */
  function CheckExternalUpdatesTimerFixed(s: State, local: Record, now: int, force: bool, pending: bool, hash: string, fetch: Fetch): (State, Round)
    requires LayerOrUnset(Get(local, Key(AdoptChannel(s, local), "plugins_user")))
  {
    ExternalRound(s, local, now, force, pending, hash, fetch, ScriptsCheck, "updateURL")
  }

  /** `#checkExternalUpdates` with both its timer and the download of the new code fixed. */
  function CheckExternalUpdatesFixed(s: State, local: Record, now: int, force: bool, pending: bool, hash: string, fetch: Fetch): (State, Round)
    requires LayerOrUnset(Get(local, Key(AdoptChannel(s, local), "plugins_user")))
  {
    ExternalRound(s, local, now, force, pending, hash, fetch, ScriptsCheck, "downloadURL")
  }

  /**
   * As written, once a daemon manager has checked the user scripts, the next timer
   * checks the catalogue instead, so the user scripts are checked again only when
   * the manager is started again.
   */
  lemma ExternalTimerChecksCatalogue(s: State, local: Record, now: int, hash: string, fetch: Fetch)
    requires LayerOrUnset(Get(local, Key(AdoptChannel(s, local), "plugins_user")))
    requires Truthy(s.daemon)
    ensures CheckExternalUpdates(s, local, now, false, false, hash, fetch).1.scheduled == Some(CatalogueCheck)
  {
  }

  /**
   * With its timer fixed, the manager's check of the user scripts is the worker's,
   * on the channel it read from storage, whichever field the code is downloaded from;
   * in particular the timer-fixed check as written is the worker's as written, and the
   * fully fixed check is the worker's fixed one.
   */
  lemma FixedExternalCheckIsTheWorkers(s: State, local: Record, now: int, force: bool, pending: bool, hash: string, fetch: Fetch, codeField: string)
    requires AdoptChannel(s, local).channel.Str?
    requires LayerOrUnset(Get(local, Key(AdoptChannel(s, local), "plugins_user")))
    ensures ExternalRound(s, local, now, force, pending, hash, fetch, ScriptsCheck, codeField).1
         == Worker.ExternalCheck(local, AdoptChannel(s, local).channel.s, now, force, pending, Truthy(s.daemon), hash, fetch, codeField)
    ensures CheckExternalUpdatesTimerFixed(s, local, now, force, pending, hash, fetch).1
         == Worker.CheckExternalUpdates(local, AdoptChannel(s, local).channel.s, now, force, pending, Truthy(s.daemon), hash, fetch)
    ensures CheckExternalUpdatesFixed(s, local, now, force, pending, hash, fetch).1
         == Worker.CheckExternalUpdatesFixed(local, AdoptChannel(s, local).channel.s, now, force, pending, Truthy(s.daemon), hash, fetch)
  {
    var channel := AdoptChannel(s, local).channel.s;
    assert Key(AdoptChannel(s, local), "plugins_user") == ChannelKey(channel, "plugins_user");
    var a := ExternalRound(s, local, now, force, pending, hash, fetch, ScriptsCheck, codeField).1;
    var b := Worker.ExternalCheck(local, channel, now, force, pending, Truthy(s.daemon), hash, fetch, codeField);
    assert a.pending == b.pending;
    assert a.scheduled == b.scheduled;
    assert a.writes == b.writes;
  }

  /** The check of the user scripts leaves the hosts as they were, whatever is stored. */
  lemma ExternalRoundKeepsHosts(s: State, local: Record, now: int, force: bool, pending: bool, hash: string, fetch: Fetch, timer: Task, codeField: string)
    requires LayerOrUnset(Get(local, Key(AdoptChannel(s, local), "plugins_user")))
    ensures ExternalRound(s, local, now, force, pending, hash, fetch, timer, codeField).0.hosts == s.hosts
    ensures ExternalRound(s, local, now, force, pending, hash, fetch, timer, codeField).0.channel == Adopt(s, local).channel
  {
  }
}
