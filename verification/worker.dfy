/**
 * The worker (`Worker` in src/worker.js): the background component that keeps the
 * catalogue, IITC and the plugins of the current channel up to date and writes
 * everything it learns to storage.
 *
 * Every operation reads the record `storage.get` answered and returns the objects it
 * hands to `storage.set`, in order; the clock, the network and the timers are
 * parameters.
 */
module Worker {
  import opened Wrappers
  import opened Json
  import opened Storage
  import opened MetaHeader
  import opened Catalog
  import opened Channels
  import opened Schedule

  // ---------------------------------------------------------------------------
  // Settings (`_init`, `_syncStorage`)

  /** The settings the worker runs with. */
  datatype Settings = Settings(channel: Value, networkHost: Value, isDaemon: Value)

  /** The configuration the worker is created with; `None` leaves a setting to the store. */
  datatype Config = Config(channel: Option<Value>, networkHost: Option<Value>, isDaemon: Option<Value>)

  /** The hosts used when neither the configuration nor the store names them. */
  const DefaultHosts: Value := Obj(map[
    "release" := Str("https://iitc.app/build/release"),
    "beta" := Str("https://iitc.app/build/beta"),
    "custom" := Str("http://localhost:8000")])

  /** The keys `_init` synchronises. */
  const SettingKeys: seq<string> := ["channel", "network_host", "is_daemon"]

  /**
   * `_syncStorage`: the configured value wins, then the stored one, then the
   * default; `undefined` is the only thing that counts as missing.
   */
  function SyncValue(stored: Option<Value>, defaults: Value, override: Option<Value>): (v: Value)
    ensures override.Some? ==> v == override.value
    ensures override.None? && stored.Some? ==> v == stored.value
    ensures override.None? && stored.None? ==> v == defaults
  {
    match override
    case Some(x) => x
    case None => stored.GetOr(defaults)
  }

  /**
   * `_syncStorage(key, ...)`: the setting, and the object it saves, the key being
   * one that is never filed under a channel.
   */
  function SyncStorage(found: Record, key: string, defaults: Value, override: Option<Value>): (r: (Value, Record))
    requires key in GlobalKeys
    ensures r.1 == map[key := r.0]
    ensures forall channel :: Channels.Save(WorkerFields, channel, r.1) == r.1
  {
    var v := SyncValue(Get(found, key), defaults, override);
    GlobalKeySavedAsIs(key, v);
    (v, map[key := v])
  }

  /** A key that is never filed under a channel is saved as it is, whatever the channel. */
  lemma GlobalKeySavedAsIs(key: string, v: Value)
    requires key in GlobalKeys
    ensures forall channel :: Channels.Save(WorkerFields, channel, map[key := v]) == map[key := v]
  {
    assert key !in WorkerFields by {
      if key in WorkerFields {
        NoGlobalKeyEndsInAField(key, key);
      }
    }
    forall channel
      ensures Channels.Save(WorkerFields, channel, map[key := v]) == map[key := v]
    {
      SaveOne(WorkerFields, channel, key, v);
    }
  }

  /**
   * `_init`: the three settings as `_syncStorage` fixes them from `found` (the
   * answer of `storage.get` for their keys), and everything it saves.
   */
  function Init(found: Record, config: Config): (r: (Settings, Record))
    ensures r.1.Keys == {"channel", "network_host", "is_daemon"}
    ensures r.1["channel"] == r.0.channel && r.1["network_host"] == r.0.networkHost && r.1["is_daemon"] == r.0.isDaemon
    ensures config.channel.Some? ==> r.0.channel == config.channel.value
    ensures config.networkHost.Some? ==> r.0.networkHost == config.networkHost.value
    ensures config.isDaemon.Some? ==> r.0.isDaemon == config.isDaemon.value
  {
    var (channel, w1) := SyncStorage(found, "channel", Str("release"), config.channel);
    var (host, w2) := SyncStorage(found, "network_host", DefaultHosts, config.networkHost);
    var (daemon, w3) := SyncStorage(found, "is_daemon", Bool(true), config.isDaemon);
    (Settings(channel, host, daemon), w1 + w2 + w3)
  }

  /** No configuration at all. */
  const NoConfig: Config := Config(None, None, None)

  /**
   * The settings persist: after a start, a later start without configuration, with
   * either kind of store, finds the same settings and writes back what is already
   * there.
   */
  lemma InitPersists(store: Store, config: Config, browser: bool)
    ensures var (s, w) := Init(BrowserGet(store, SettingKeys), config);
      var after := Write(store, w);
      var found := if browser then BrowserGet(after, SettingKeys) else ReadKeys(after, SettingKeys);
      && Init(found, NoConfig) == (s, w)
      && Write(after, w) == after
  {
    var (s, w) := Init(BrowserGet(store, SettingKeys), config);
    SettingsPersist(store, s, w, browser);
  }

  /** `InitPersists`, for the settings `s` and the object `w` that saves them. */
  lemma SettingsPersist(store: Store, s: Settings, w: Record, browser: bool)
    requires w == map["channel" := s.channel, "network_host" := s.networkHost, "is_daemon" := s.isDaemon]
    ensures var after := Write(store, w);
      var found := if browser then BrowserGet(after, SettingKeys) else ReadKeys(after, SettingKeys);
      && Init(found, NoConfig) == (s, w)
      && Write(after, w) == after
  {
    SettingsReadBack(store, s, w, browser);
    if browser {
      InitFindsItsWrites(BrowserGet(Write(store, w), SettingKeys), s, w);
    } else {
      InitFindsItsWrites(ReadKeys(Write(store, w), SettingKeys), s, w);
    }
    WriteAgain(store, w);
  }

  /** A start without configuration that finds every setting keeps it, and writes it back. */
  lemma InitFindsItsWrites(found: Record, s: Settings, w: Record)
    requires w == map["channel" := s.channel, "network_host" := s.networkHost, "is_daemon" := s.isDaemon]
    requires Get(found, "channel") == Some(s.channel)
    requires Get(found, "network_host") == Some(s.networkHost)
    requires Get(found, "is_daemon") == Some(s.isDaemon)
    ensures Init(found, NoConfig) == (s, w)
  {
    var (channel, w1) := SyncStorage(found, "channel", Str("release"), None);
    var (host, w2) := SyncStorage(found, "network_host", DefaultHosts, None);
    var (daemon, w3) := SyncStorage(found, "is_daemon", Bool(true), None);
    assert Settings(channel, host, daemon) == s;
    assert w1 + w2 + w3 == w;
  }

  /** What a store holds after the settings are written, read back either way. */
  lemma SettingsReadBack(store: Store, s: Settings, w: Record, browser: bool)
    requires w == map["channel" := s.channel, "network_host" := s.networkHost, "is_daemon" := s.isDaemon]
    ensures var found := if browser then BrowserGet(Write(store, w), SettingKeys) else ReadKeys(Write(store, w), SettingKeys);
      && Get(found, "channel") == Some(s.channel)
      && Get(found, "network_host") == Some(s.networkHost)
      && Get(found, "is_daemon") == Some(s.isDaemon)
  {
    assert "channel" in SettingKeys && "network_host" in SettingKeys && "is_daemon" in SettingKeys;
  }

  /** On an empty browser store, without configuration, the defaults are used. */
  lemma InitDefaults()
    ensures Init(BrowserGet(map[], SettingKeys), NoConfig).0 == Settings(Str("release"), DefaultHosts, Bool(true))
  {
  }

  /**
   * The in-memory test store answers null for a key never written, and `_syncStorage`
   * keeps null: there, without configuration, no default is ever used.
   */
  lemma InitOnEmptyTestStore()
    ensures Init(ReadKeys(map[], SettingKeys), NoConfig).0 == Settings(Null, Null, Null)
  {
    var found := ReadKeys(map[], SettingKeys);
    assert "channel" in SettingKeys && "network_host" in SettingKeys && "is_daemon" in SettingKeys;
    assert Get(found, "channel") == Some(Null);
    assert Get(found, "network_host") == Some(Null);
    assert Get(found, "is_daemon") == Some(Null);
  }

  // ---------------------------------------------------------------------------
  // When to check (`_checkInternalUpdates`, `_checkExternalUpdates`)

  /**
   * The decision of `_checkInternalUpdates`: with no Last-Modified value or no time of
   * the last check stored (null or undefined), download at once; when the interval
   * has passed or the check is forced, ask for the header and download when it
   * differs from the stored one or the check is forced; otherwise do nothing. A
   * branch that ran clears the pending timer, and without a pending timer the time
   * is saved and, for a daemon, the next check scheduled.
   */
  function PlanInternal(local: Record, channel: string, now: int, force: bool, header: Option<string>, pending: bool, daemon: bool): (p: Plan)
    ensures var lm := Get(local, ChannelKey(channel, "last_modified"));
      var lc := Get(local, "last_check_update");
      && (p.branch.Initial? <==> !IsSet(lm) || !IsSet(lc))
      && (p.branch.HeaderCheck? <==> IsSet(lm) && IsSet(lc) && (force || Due(now, p.interval, lc)))
      && (p.branch.Initial? ==> p.refresh && p.lastModified == Null)
      && (p.branch.HeaderCheck? ==> p.lastModified == Answer(header) && (p.refresh <==> force || !StrictEq(Answer(header), lm.value)))
      && (p.branch.NotDue? ==> !p.refresh)
    ensures force ==> p.refresh
    ensures p.interval == IntervalSeconds(Get(local, ChannelKey(channel, "update_check_interval")))
    ensures p.stamp <==> !p.branch.NotDue? || !pending
    ensures p.reschedule <==> p.stamp && daemon
  {
    var interval := IntervalSeconds(Get(local, ChannelKey(channel, "update_check_interval")));
    var lm := Get(local, ChannelKey(channel, "last_modified"));
    var lc := Get(local, "last_check_update");
    PlanCheck(!IsSet(lm) || !IsSet(lc), Due(now, interval, lc), force, header, lm, interval, pending, daemon)
  }


  /** An unchanged Last-Modified header and no force: the catalogue is not downloaded again. */
  lemma UnchangedHeaderNoDownload(local: Record, channel: string, now: int, header: string, pending: bool, daemon: bool)
    requires Get(local, ChannelKey(channel, "last_modified")) == Some(Str(header))
    requires IsSet(Get(local, "last_check_update"))
    ensures !PlanInternal(local, channel, now, false, Some(header), pending, daemon).refresh
  {
  }

  // ---------------------------------------------------------------------------
  // Downloading the catalogue (`_updateInternalIITC`)

  /** What a download of the catalogue saves: IITC's own code, and the plugin layers. */
  datatype InternalUpdate = InternalUpdate(core: Result<Option<Record>, string>, plugins: Record)

  /** The stored layers of a channel have the shapes the merge works on. */
  predicate ChannelLayersOk(local: Record, channel: string) {
    && LayerOrUnset(Get(local, ChannelKey(channel, "plugins_local")))
    && LayerOrUnset(Get(local, ChannelKey(channel, "plugins_user")))
    && var user := StoredLayer(Get(local, ChannelKey(channel, "plugins_user"))).GetOr(map[]);
       forall uid :: uid in user ==> CategoryIsName(user[uid])
  }

  /** The user scripts of a channel, none when the layer is null or undefined. */
  function UserScripts(local: Record, channel: string): Plugins
    requires ChannelLayersOk(local, channel)
  {
    StoredLayer(Get(local, ChannelKey(channel, "plugins_user"))).GetOr(map[])
  }

  /** Where IITC itself is downloaded from. */
  function CoreUrl(host: string): string {
    host + "/total-conversion-build.user.js"
  }

  /**
   * The IITC task: once IITC's script is downloaded, its header fields and its code
   * are saved as the channel's `iitc_core`. A script without a header block fails
   * with a TypeError (the header is read into `undefined`, which cannot take a field).
   */
  function CoreUpdate(channel: string, host: string, fetch: Fetch): (r: Result<Option<Record>, string>)
    ensures var code := fetch(CoreUrl(host));
      && (r == Ok(None) <==> !Fetched(code))
      && (r.Err? <==> Fetched(code) && ParseMeta(code.value).None?)
      && (r.Ok? && r.value.Some? ==>
            && r.value.value.Keys == {ChannelKey(channel, "iitc_core")}
            && var core := r.value.value[ChannelKey(channel, "iitc_core")];
               core.Obj? && Get(core.fields, "code") == Some(Str(code.value))
               && forall f :: f != "code" ==> Get(core.fields, f) == Get(ParseMeta(code.value).value, f))
  {
    var code := fetch(CoreUrl(host));
    if !Fetched(code) then Ok(None)
    else
      match ParseMeta(code.value)
      case None => Err("TypeError")
      case Some(meta) =>
        var core := Obj(meta["code" := Str(code.value)]);
        SaveOne(WorkerFields, channel, "iitc_core", core);
        Ok(Some(Channels.Save(WorkerFields, channel, map["iitc_core" := core])))
  }

  /** The installed plugins after the refresh: only plugins the catalogue still offers. */
  function Installed(local: Record, channel: string, catalogue: Catalogue, host: string, fetch: Fetch): (p: Plugins)
    requires ChannelLayersOk(local, channel)
    ensures p.Keys <= PluginsFlat(catalogue, true).Keys
    ensures MergeLayers(PluginsFlat(catalogue, true), p, UserScripts(local, channel)).Ok?
  {
    var flat := PluginsFlat(catalogue, true);
    var stored := StoredLayer(Get(local, ChannelKey(channel, "plugins_local")));
    RefreshedLayersMerge(flat, stored, UserScripts(local, channel), host, fetch);
    UpdateLocalPlugins(flat, stored, host, fetch)
  }

  /** The merged layers: the flat list holds the offered plugins and the user scripts. */
  function MergedLayers(local: Record, channel: string, catalogue: Catalogue, host: string, fetch: Fetch): (m: Merged)
    requires ChannelLayersOk(local, channel)
    ensures m.flat.Keys == PluginsFlat(catalogue, true).Keys + UserScripts(local, channel).Keys
    ensures m.user.Keys == UserScripts(local, channel).Keys
  {
    MergeLayers(PluginsFlat(catalogue, true), Installed(local, channel, catalogue, host, fetch), UserScripts(local, channel)).value
  }

  /** The channel's data once a catalogue is downloaded. */
  datatype Layers = Layers(categories: Record, flat: Plugins, installed: Plugins, user: Plugins)

  /**
   * The plugins task before saving: the installed plugins refreshed against the
   * catalogue, the merged layers, and the categories with those of the user scripts
   * added.
   */
  function Refresh(local: Record, channel: string, catalogue: Catalogue, host: string, fetch: Fetch): (l: Layers)
    requires WellFormed(catalogue) && ChannelLayersOk(local, channel)
    ensures l.installed.Keys <= PluginsFlat(catalogue, true).Keys
    ensures l.flat.Keys == PluginsFlat(catalogue, true).Keys + UserScripts(local, channel).Keys
    ensures l.user.Keys == UserScripts(local, channel).Keys
    ensures forall uid :: uid in UserScripts(local, channel) ==> CategoryOf(UserScripts(local, channel)[uid]) in l.categories
  {
    var user := UserScripts(local, channel);
    var merged := MergedLayers(local, channel, catalogue, host, fetch);
    Layers(RebuildCategories(Categories(catalogue), user), merged.flat, Installed(local, channel, catalogue, host, fetch), merged.user)
  }

  /** The object the plugins task hands to `_save`. */
  function PluginOptions(l: Layers, lastModified: Value, version: Option<Value>): (o: Record)
    ensures o.Keys <= WorkerFields && "iitc_core" !in o
    ensures Get(o, "last_modified") == Some(lastModified)
    ensures Get(o, "categories") == Some(Obj(l.categories))
    ensures Get(o, "plugins_flat") == Some(LayerValue(l.flat))
    ensures Get(o, "plugins_local") == Some(LayerValue(l.installed))
    ensures Get(o, "plugins_user") == Some(LayerValue(l.user))
    ensures Get(o, "iitc_version") == version
  {
    SetOpt(map[], "iitc_version", version)
      ["last_modified" := lastModified]
      ["categories" := Obj(l.categories)]
      ["plugins_flat" := LayerValue(l.flat)]
      ["plugins_local" := LayerValue(l.installed)]
      ["plugins_user" := LayerValue(l.user)]
  }

  /** The plugins task: the refreshed layers, saved under the channel. */
  function PluginsUpdate(local: Record, channel: string, lastModified: Value, catalogue: Catalogue, host: string, fetch: Fetch): (w: Record)
    requires WellFormed(catalogue) && ChannelLayersOk(local, channel)
    ensures var o := PluginOptions(Refresh(local, channel, catalogue, host, fetch), lastModified, Get(catalogue.fields, "iitc_version"));
      && (forall f :: f in o ==> ChannelKey(channel, f) in w && w[ChannelKey(channel, f)] == o[f])
      && (forall k :: k in w ==> exists f :: f in o && k == ChannelKey(channel, f))
  {
    var options := PluginOptions(Refresh(local, channel, catalogue, host, fetch), lastModified, Get(catalogue.fields, "iitc_version"));
    FieldsSaveDistinct(WorkerFields, channel, options);
    Channels.Save(WorkerFields, channel, options)
  }

  /**
   * What the plugins task saves: every installed plugin is one the catalogue still
   * offers (retired categories excluded), the flat list holds exactly the offered
   * plugins and the user scripts, every user script's category exists, and the
   * Last-Modified value is the one passed in.
   */
  lemma PluginsUpdateSaves(local: Record, channel: string, lastModified: Value, catalogue: Catalogue, host: string, fetch: Fetch)
    requires WellFormed(catalogue) && ChannelLayersOk(local, channel)
    ensures var w := PluginsUpdate(local, channel, lastModified, catalogue, host, fetch);
      var offered := PluginsFlat(catalogue, true);
      var user := UserScripts(local, channel);
      && ChannelKey(channel, "plugins_local") in w && IsLayer(w[ChannelKey(channel, "plugins_local")])
      && AsPlugins(w[ChannelKey(channel, "plugins_local")]).Keys <= offered.Keys
      && ChannelKey(channel, "plugins_flat") in w && IsLayer(w[ChannelKey(channel, "plugins_flat")])
      && AsPlugins(w[ChannelKey(channel, "plugins_flat")]).Keys == offered.Keys + user.Keys
      && ChannelKey(channel, "plugins_user") in w && IsLayer(w[ChannelKey(channel, "plugins_user")])
      && AsPlugins(w[ChannelKey(channel, "plugins_user")]).Keys == user.Keys
      && ChannelKey(channel, "categories") in w && w[ChannelKey(channel, "categories")].Obj?
      && (forall uid :: uid in user ==> CategoryOf(user[uid]) in w[ChannelKey(channel, "categories")].fields)
      && ChannelKey(channel, "last_modified") in w && w[ChannelKey(channel, "last_modified")] == lastModified
  {
    var o := PluginOptions(Refresh(local, channel, catalogue, host, fetch), lastModified, Get(catalogue.fields, "iitc_version"));
    assert "plugins_local" in o && "plugins_flat" in o && "plugins_user" in o && "categories" in o && "last_modified" in o;
  }

  /**
   * `_updateInternalIITC`: nothing when the catalogue could not be downloaded;
   * otherwise the two tasks, which write disjoint keys.
   */
  function UpdateInternalIITC(local: Record, channel: string, lastModified: Value, catalogue: Option<Catalogue>, host: string, fetch: Fetch): (r: Option<InternalUpdate>)
    requires catalogue.Some? ==> WellFormed(catalogue.value)
    requires ChannelLayersOk(local, channel)
    ensures r.Some? <==> catalogue.Some?
    ensures r.Some? ==> r.value.core == CoreUpdate(channel, host, fetch)
    ensures r.Some? ==> r.value.plugins == PluginsUpdate(local, channel, lastModified, catalogue.value, host, fetch)
  {
    match catalogue
    case None => None
    case Some(c) => Some(InternalUpdate(CoreUpdate(channel, host, fetch), PluginsUpdate(local, channel, lastModified, c, host, fetch)))
  }

  /**
   * The two tasks run concurrently in the source; their writes touch different keys,
   * so either order leaves the same store.
   */
  lemma TasksCommute(store: Store, local: Record, channel: string, lastModified: Value, catalogue: Catalogue, host: string, fetch: Fetch)
    requires WellFormed(catalogue) && ChannelLayersOk(local, channel)
    requires CoreUpdate(channel, host, fetch).Ok? && CoreUpdate(channel, host, fetch).value.Some?
    ensures Write(Write(store, CoreUpdate(channel, host, fetch).value.value), PluginsUpdate(local, channel, lastModified, catalogue, host, fetch))
         == Write(Write(store, PluginsUpdate(local, channel, lastModified, catalogue, host, fetch)), CoreUpdate(channel, host, fetch).value.value)
  {
    CoreKeys(channel, host, fetch);
    PluginsAvoidCore(local, channel, lastModified, catalogue, host, fetch);
    SingleKeyCommutes(store, CoreUpdate(channel, host, fetch).value.value, PluginsUpdate(local, channel, lastModified, catalogue, host, fetch), ChannelKey(channel, "iitc_core"));
  }

  /** The IITC task writes IITC's own key only. */
  lemma CoreKeys(channel: string, host: string, fetch: Fetch)
    requires CoreUpdate(channel, host, fetch).Ok? && CoreUpdate(channel, host, fetch).value.Some?
    ensures CoreUpdate(channel, host, fetch).value.value.Keys == {ChannelKey(channel, "iitc_core")}
  {
  }

  /** The plugins task never writes IITC's own key. */
  lemma PluginsAvoidCore(local: Record, channel: string, lastModified: Value, catalogue: Catalogue, host: string, fetch: Fetch)
    requires WellFormed(catalogue) && ChannelLayersOk(local, channel)
    ensures ChannelKey(channel, "iitc_core") !in PluginsUpdate(local, channel, lastModified, catalogue, host, fetch)
  {
    var plugins := PluginsUpdate(local, channel, lastModified, catalogue, host, fetch);
    var o := PluginOptions(Refresh(local, channel, catalogue, host, fetch), lastModified, Get(catalogue.fields, "iitc_version"));
    if ChannelKey(channel, "iitc_core") in plugins {
      var f :| f in o && ChannelKey(channel, "iitc_core") == ChannelKey(channel, f);
      ChannelKeyInjective(channel, f, channel, "iitc_core");
    }
  }

  // ---------------------------------------------------------------------------
  // One round of checks


  /** The object the IITC task saved, if any. */
  function CoreWrites(core: Result<Option<Record>, string>): (ws: seq<Record>)
    ensures |ws| <= 1
  {
    if core.Ok? && core.value.Some? then [core.value.value] else []
  }

  /**
   * The round a check of the catalogue leaves once its plan and its download are
   * known: the download's writes, then the time of the check unless a failing IITC
   * task rejected the round, which also leaves nothing scheduled.
   */
  function InternalRound(p: Plan, update: Option<InternalUpdate>, now: int): (r: Round)
    ensures update.None? ==> !r.failed && r.writes == (if p.stamp then [map["last_check_update" := Num(now)]] else [])
    ensures r.failed <==> update.Some? && update.value.core.Err?
    ensures !r.failed && p.stamp ==> |r.writes| > 0 && r.writes[|r.writes| - 1] == map["last_check_update" := Num(now)]
    ensures r.scheduled.Some? <==> !r.failed && p.reschedule
    ensures r.scheduled.Some? ==> r.scheduled.value == CatalogueCheck
  {
    var downloads := if update.None? then [] else CoreWrites(update.value.core) + [update.value.plugins];
    var failed := update.Some? && update.value.core.Err?;
    var stamp := if p.stamp && !failed then [map["last_check_update" := Num(now)]] else [];
    Round(downloads + stamp, failed, !p.stamp, if p.reschedule && !failed then Some(CatalogueCheck) else None)
  }

  /**
   * `_checkInternalUpdates(force)` on the answer of `storage.get`: the plan, the
   * download when the plan asks for one, and the time of the check. A failing IITC
   * task rejects the round after the plugins are saved, so the time is not saved
   * and nothing is scheduled.
   */
  function CheckInternalUpdates(local: Record, channel: string, host: string, now: int, force: bool, pending: bool, daemon: bool,
                                header: Option<string>, catalogue: Option<Catalogue>, fetch: Fetch): (r: Round)
    requires catalogue.Some? ==> WellFormed(catalogue.value)
    requires ChannelLayersOk(local, channel)
    ensures r.pending <==> PlanInternal(local, channel, now, force, header, pending, daemon).branch.NotDue? && pending
    ensures r.scheduled.Some? ==> r.scheduled.value == CatalogueCheck
  {
    var p := PlanInternal(local, channel, now, force, header, pending, daemon);
    var update := if p.refresh then UpdateInternalIITC(local, channel, p.lastModified, catalogue, host, fetch) else None;
    InternalRound(p, update, now)
  }

  /** Without a download (none planned, or the catalogue could not be fetched) a check saves at most its time. */
  lemma CheckWithoutDownload(local: Record, channel: string, host: string, now: int, force: bool, pending: bool, daemon: bool,
                             header: Option<string>, catalogue: Option<Catalogue>, fetch: Fetch)
    requires catalogue.Some? ==> WellFormed(catalogue.value)
    requires ChannelLayersOk(local, channel)
    requires var p := PlanInternal(local, channel, now, force, header, pending, daemon);
      !p.refresh || catalogue.None?
    ensures var p := PlanInternal(local, channel, now, force, header, pending, daemon);
      var r := CheckInternalUpdates(local, channel, host, now, force, pending, daemon, header, catalogue, fetch);
      && !r.failed
      && r.writes == (if p.stamp then [map["last_check_update" := Num(now)]] else [])
      && (r.scheduled.Some? <==> p.reschedule)
  {
    var p := PlanInternal(local, channel, now, force, header, pending, daemon);
    var update := if p.refresh then UpdateInternalIITC(local, channel, p.lastModified, catalogue, host, fetch) else None;
    assert update.None?;
  }

  /** A check fails exactly when it downloads the catalogue and the IITC task fails. */
  lemma CheckFails(local: Record, channel: string, host: string, now: int, force: bool, pending: bool, daemon: bool,
                   header: Option<string>, catalogue: Option<Catalogue>, fetch: Fetch)
    requires catalogue.Some? ==> WellFormed(catalogue.value)
    requires ChannelLayersOk(local, channel)
    ensures var p := PlanInternal(local, channel, now, force, header, pending, daemon);
      var r := CheckInternalUpdates(local, channel, host, now, force, pending, daemon, header, catalogue, fetch);
      r.failed <==> p.refresh && catalogue.Some? && CoreUpdate(channel, host, fetch).Err?
  {
    var p := PlanInternal(local, channel, now, force, header, pending, daemon);
    var update := if p.refresh then UpdateInternalIITC(local, channel, p.lastModified, catalogue, host, fetch) else None;
    assert update.Some? ==> update.value.core == CoreUpdate(channel, host, fetch);
  }

  /**
   * A check that did not fail saves its time last whenever its plan stamps it, and
   * schedules the next check exactly when its plan reschedules.
   */
  lemma CheckStamps(local: Record, channel: string, host: string, now: int, force: bool, pending: bool, daemon: bool,
                    header: Option<string>, catalogue: Option<Catalogue>, fetch: Fetch)
    requires catalogue.Some? ==> WellFormed(catalogue.value)
    requires ChannelLayersOk(local, channel)
    ensures var p := PlanInternal(local, channel, now, force, header, pending, daemon);
      var r := CheckInternalUpdates(local, channel, host, now, force, pending, daemon, header, catalogue, fetch);
      && (!r.failed && p.stamp ==> |r.writes| > 0 && r.writes[|r.writes| - 1] == map["last_check_update" := Num(now)])
      && (r.scheduled.Some? <==> !r.failed && p.reschedule)
  {
  }

  /**
   * `_checkExternalUpdates(force)` on the answer of `storage.get`, with the field the
   * new code is downloaded from as a parameter: when the interval has passed or the
   * check is forced, the user scripts are updated and saved if any changed; without a
   * pending timer the time is saved and, for a daemon, the next check scheduled.
   */
  function ExternalCheck(local: Record, channel: string, now: int, force: bool, pending: bool, daemon: bool,
                         hash: string, fetch: Fetch, codeField: string): (r: Round)
    requires LayerOrUnset(Get(local, ChannelKey(channel, "plugins_user")))
    ensures var interval := IntervalSeconds(Get(local, "external_update_check_interval"));
      var run := force || Due(now, interval, Get(local, "last_check_external_update"));
      var updated := if run then UpdateExternalWith(StoredLayer(Get(local, ChannelKey(channel, "plugins_user"))), hash, fetch, codeField) else None;
      var stamp := if r.pending then [] else [map["last_check_external_update" := Num(now)]];
      && !r.failed
      && (r.pending <==> pending && !run)
      && (r.scheduled.Some? <==> !r.pending && daemon)
      && (r.scheduled.Some? ==> r.scheduled.value == ScriptsCheck)
      && r.writes == (if updated.Some? then [map[ChannelKey(channel, "plugins_user") := LayerValue(updated.value)]] else []) + stamp
  {
    var interval := IntervalSeconds(Get(local, "external_update_check_interval"));
    var run := force || Due(now, interval, Get(local, "last_check_external_update"));
    var updated := if run then UpdateExternalWith(StoredLayer(Get(local, ChannelKey(channel, "plugins_user"))), hash, fetch, codeField) else None;
    var saved := if updated.None? then [] else [SaveUserScripts(channel, updated.value)];
    var stillPending := pending && !run;
    var stamp := if !stillPending then [map["last_check_external_update" := Num(now)]] else [];
    Round(saved + stamp, false, stillPending, if !stillPending && daemon then Some(ScriptsCheck) else None)
  }

  /**
   * `_checkExternalUpdates` as written: the new code is fetched from `updateURL`
   * again (see `Catalog.UpdatedCodeIsTheDescriptor`).
   */
  function CheckExternalUpdates(local: Record, channel: string, now: int, force: bool, pending: bool, daemon: bool,
                                hash: string, fetch: Fetch): Round
    requires LayerOrUnset(Get(local, ChannelKey(channel, "plugins_user")))
  {
    ExternalCheck(local, channel, now, force, pending, daemon, hash, fetch, "updateURL")
  }

  /** `_checkExternalUpdates` downloading the new code from `downloadURL`. */
  function CheckExternalUpdatesFixed(local: Record, channel: string, now: int, force: bool, pending: bool, daemon: bool,
                                     hash: string, fetch: Fetch): Round
    requires LayerOrUnset(Get(local, ChannelKey(channel, "plugins_user")))
  {
    ExternalCheck(local, channel, now, force, pending, daemon, hash, fetch, "downloadURL")
  }

  /**
   * As written, a forced round that updates a user script saves the text served at
   * its `updateURL`, the update descriptor, as its code, then stamps the time.
   */
  lemma ExternalCheckCode(local: Record, channel: string, now: int, pending: bool, daemon: bool,
                          hash: string, fetch: Fetch, uid: string)
    requires LayerOrUnset(Get(local, ChannelKey(channel, "plugins_user")))
    requires var user := StoredLayer(Get(local, ChannelKey(channel, "plugins_user")));
      user.Some? && uid in user.value && ScriptUpdate(user.value[uid], hash, fetch, "updateURL").Some?
    ensures var user := StoredLayer(Get(local, ChannelKey(channel, "plugins_user"))).value;
      var r := CheckExternalUpdates(local, channel, now, true, pending, daemon, hash, fetch);
      && |r.writes| == 2
      && r.writes[0] == SaveUserScripts(channel, UpdateExternalPlugins(Some(user), hash, fetch).value)
      && Get(UpdateExternalPlugins(Some(user), hash, fetch).value[uid], "code")
           == Some(Str(fetch(JsStringOpt(Get(user[uid], "updateURL")) + hash).value))
  {
    var user := StoredLayer(Get(local, ChannelKey(channel, "plugins_user"))).value;
    UpdatedCodeIsTheDescriptor(user, hash, fetch, uid);
  }

  /** The object saving the user scripts of a channel. */
  function SaveUserScripts(channel: string, user: Plugins): (w: Record)
    ensures w == map[ChannelKey(channel, "plugins_user") := LayerValue(user)]
  {
    SaveOne(WorkerFields, channel, "plugins_user", LayerValue(user));
    Channels.Save(WorkerFields, channel, map["plugins_user" := LayerValue(user)])
  }

  /** The keys the worker reads before a check of the catalogue. */
  function InternalKeys(channel: string): seq<string> {
    ["last_check_update", ChannelKey(channel, "update_check_interval"), ChannelKey(channel, "last_modified"),
     ChannelKey(channel, "categories"), ChannelKey(channel, "plugins_flat"), ChannelKey(channel, "plugins_local"),
     ChannelKey(channel, "plugins_user")]
  }

  /** On a store that holds nothing, the first check downloads the catalogue, whichever store it is. */
  lemma FirstCheckDownloads(channel: string, now: int, pending: bool, daemon: bool, header: Option<string>, browser: bool)
    ensures var local := if browser then BrowserGet(map[], InternalKeys(channel)) else ReadKeys(map[], InternalKeys(channel));
      PlanInternal(local, channel, now, false, header, pending, daemon).branch.Initial?
  {
    var local := if browser then BrowserGet(map[], InternalKeys(channel)) else ReadKeys(map[], InternalKeys(channel));
    assert "last_check_update" in InternalKeys(channel);
    assert !IsSet(Get(local, "last_check_update"));
  }

  /** The keys the worker reads before a check of the user scripts. */
  function ExternalKeys(channel: string): seq<string> {
    ["channel", "last_check_external_update", "external_update_check_interval", ChannelKey(channel, "plugins_user")]
  }

  /**
   * The first check of the user scripts on a store that never saved one: the test
   * store answers null, which counts as time 0, so the check runs; a browser store
   * leaves the key out, which makes the difference NaN, so it does not.
   */
  lemma FirstExternalCheckDependsOnStore(channel: string, now: int)
    requires now >= DaySeconds
    ensures Due(now, DaySeconds, Get(ReadKeys(map[], ExternalKeys(channel)), "last_check_external_update"))
    ensures !Due(now, DaySeconds, Get(BrowserGet(map[], ExternalKeys(channel)), "last_check_external_update"))
  {
    assert "last_check_external_update" in ExternalKeys(channel);
  }
}
