/**
 * Backups (src/backup.js): what an export takes out of storage, and what an import
 * asks of the manager. The manager's own operations (`setChannel`,
 * `addUserScripts`) are not called here: an import yields the calls it makes, in
 * order.
 */
module Backup {
  import opened Wrappers
  import opened Text
  import opened Json
  import opened Storage
  import opened MetaHeader
  import Catalog
  import opened Channels
  import PluginEdits
  import Helpers
  import Manager

  // ---------------------------------------------------------------------------
  // `paramsProcessing`

  /** The three parts a backup can hold, none selected. */
  const DefaultParams: Record := map["settings" := Bool(false), "data" := Bool(false), "external" := Bool(false)]

  /** The own keys an array spreads into an object: its indices, as text. */
  function IndexEntries(xs: seq<Value>): (r: Record)
    ensures forall i :: 0 <= i < |xs| ==> NatToString(i) in r && r[NatToString(i)] == xs[i]
    ensures forall k :: k in r ==> exists i :: 0 <= i < |xs| && k == NatToString(i)
  {
    IndexKeysDistinct();
    map i | 0 <= i < |xs| :: NatToString(i) := xs[i]
  }

  /** Two indices never print the same. */
  lemma IndexKeysDistinct()
    ensures forall i: nat, j: nat :: NatToString(i) == NatToString(j) ==> i == j
  {
    forall i: nat, j: nat | NatToString(i) == NatToString(j)
      ensures i == j
    {
      DigitsRoundTrip(i);
      DigitsRoundTrip(j);
    }
  }

  /**
   * `paramsProcessing(params)`: the defaults overridden by the own entries of the
   * argument; anything that is not an object (`typeof` other than 'object') counts
   * as `{}`, and `null` spreads to nothing.
   */
  function ParamsProcessing(params: Value): (r: Record)
    ensures forall k :: k in DefaultParams ==> k in r
    ensures params.Obj? ==> forall k :: k in params.fields ==> k in r && r[k] == params.fields[k]
    ensures forall k :: k in r && !(params.Obj? && k in params.fields) && !params.Arr? ==> k in DefaultParams && r[k] == DefaultParams[k]
    ensures !params.Obj? && !params.Arr? ==> r == DefaultParams
  {
    match params
    case Obj(fields) => DefaultParams + fields
    case Arr(xs) => DefaultParams + IndexEntries(xs)
    case _ => DefaultParams
  }

  /** An array never names one of the three parts: they all stay unselected. */
  lemma ArrayParamsSelectNothing(xs: seq<Value>)
    ensures forall k :: k in DefaultParams ==> ParamsProcessing(Arr(xs))[k] == Bool(false)
  {
    forall k | k in DefaultParams
      ensures k !in IndexEntries(xs)
    {
      assert !IsDigit(k[0]);
      forall i | 0 <= i < |xs|
        ensures NatToString(i) != k
      {
        assert IsDigit(NatToString(i)[0]);
      }
    }
  }

  // ---------------------------------------------------------------------------
  // Exports

  /** The entries of a storage snapshot whose keys pass `keep`. */
  function Restrict(all: Record, keep: string -> bool): (r: Record)
    ensures forall k :: k in r <==> k in all && keep(k)
    ensures forall k :: k in r ==> r[k] == all[k]
  {
    map k | k in all && keep(k) :: all[k]
  }

  /** The settings `exportIitcSettings` keeps. */
  const IitcSettingKeys: set<string> :=
    {"channel", "network_host", "release_update_check_interval", "beta_update_check_interval", "custom_update_check_interval"}

  /** A key `exportIitcSettings` keeps. */
  predicate IsIitcSetting(k: string) {
    k in IitcSettingKeys
  }

  /** `exportIitcSettings(all_storage)`: exactly the five IITC settings the snapshot holds. */
  function ExportIitcSettings(all: Record): (r: Record)
    ensures forall k :: k in r <==> k in all && k in IitcSettingKeys
    ensures forall k :: k in r ==> r[k] == all[k]
  {
    Restrict(all, IsIitcSetting)
  }

  /** A key `exportPluginsSettings` keeps: the plugins' own storage, prefixed 'VMin'. */
  predicate IsPluginSetting(k: string) {
    StartsWith(k, "VMin")
  }

  /** `exportPluginsSettings(all_storage)`: exactly the entries whose key starts with 'VMin'. */
  function ExportPluginsSettings(all: Record): (r: Record)
    ensures forall k :: k in r <==> k in all && StartsWith(k, "VMin")
    ensures forall k :: k in r ==> r[k] == all[k]
  {
    Restrict(all, IsPluginSetting)
  }

  /** Exporting after a write is exporting before it, overwritten by the export of what was written. */
  lemma ExportsFollowWrites(store: Store, obj: Record)
    ensures ExportIitcSettings(Write(store, obj)) == ExportIitcSettings(store) + ExportIitcSettings(obj)
    ensures ExportPluginsSettings(Write(store, obj)) == ExportPluginsSettings(store) + ExportPluginsSettings(obj)
  {
  }

  /** No IITC setting looks like a plugin's own storage: the two exports never share a key. */
  lemma ExportsDisjoint(all: Record)
    ensures ExportIitcSettings(all).Keys !! ExportPluginsSettings(all).Keys
  {
    forall k | k in IitcSettingKeys
      ensures !StartsWith(k, "VMin")
    {
      assert k[0] != 'V';
    }
  }

  /** The channels whose user scripts `exportExternalPlugins` reads. */
  const ExternalChannels: set<string> := {"release", "beta", "custom"}

  /** The storage key of a channel's user scripts. */
  function UserScriptsKey(channel: string): string {
    ChannelKey(channel, "plugins_user")
  }

  /** A channel's user scripts are exported under the text before the first '_' of their key (`key.split('_')[0]`): the channel's name. */
  lemma ExportNameIsKeyPrefix(channel: string)
    requires channel in ExternalChannels
    ensures BeforeFirst(UserScriptsKey(channel), '_') == channel
  {
    assert forall i :: 0 <= i < |channel| ==> channel[i] != '_';
    BeforeFirstOf(channel, "plugins_user");
  }

  /** The text before the first '_' of `a + "_" + b`, when `a` has none. */
  lemma {:induction false} BeforeFirstOf(a: string, b: string)
    requires forall i :: 0 <= i < |a| ==> a[i] != '_'
    ensures BeforeFirst(a + "_" + b, '_') == a
  {
    if |a| > 0 {
      BeforeFirstOf(a[1..], b);
      assert (a + "_" + b)[1..] == a[1..] + "_" + b;
    }
  }

  /** The key a plugin's code is exported under: its file name, as text (`undefined` when it has none). */
  function FileKey(p: Record): string {
    JsStringOpt(Get(p, "filename"))
  }

  /**
   * One channel's user scripts, one after the other in key order: each file name
   * gets the plugin's code; of two plugins with one file name the later wins, and a
   * plugin without code leaves its file name out.
   */
  function ExportLayer(layer: map<string, Record>, order: seq<string>): (r: Record)
    requires forall u :: u in order ==> u in layer
    ensures forall k :: k in r ==> exists i :: 0 <= i < |order| && FileKey(layer[order[i]]) == k
    decreases |order|
  {
    if |order| == 0 then map[]
    else
      var last := order[|order| - 1];
      assert forall u :: u in order[..|order| - 1] ==> u in order;
      var front := ExportLayer(layer, order[..|order| - 1]);
      SetOpt(front, FileKey(layer[last]), Get(layer[last], "code"))
  }

  /** A channel's user scripts, in their key order. */
  function ExportChannel(layer: map<string, Record>, order: seq<string>): Record
    requires Catalog.Enumerates(order, layer)
  {
    assert forall u :: u in order ==> u in layer;
    ExportLayer(layer, order)
  }

  /** With file names distinct, the order of the scripts does not matter: each file name gets its own plugin's code. */
  lemma {:induction false} ExportLayerDistinct(layer: map<string, Record>, order: seq<string>)
    requires forall u :: u in order ==> u in layer
    requires forall i, j :: 0 <= i < |order| && 0 <= j < |order| && FileKey(layer[order[i]]) == FileKey(layer[order[j]]) ==> i == j
    ensures forall i :: 0 <= i < |order| ==> Get(ExportLayer(layer, order), FileKey(layer[order[i]])) == Get(layer[order[i]], "code")
    decreases |order|
  {
    if |order| > 0 {
      var front := order[..|order| - 1];
      assert forall u :: u in front ==> u in order;
      ExportLayerDistinct(layer, front);
      forall i | 0 <= i < |order|
        ensures Get(ExportLayer(layer, order), FileKey(layer[order[i]])) == Get(layer[order[i]], "code")
      {
        if i < |order| - 1 {
          assert order[i] == front[i];
        }
      }
    }
  }

  /** The plugin records of a stored layer; null has none. */
  function LayerEntries(v: Value): map<string, Record> {
    if v.Obj? then map k | k in v.fields && v.fields[k].Obj? :: v.fields[k].fields else map[]
  }

  /** A stored layer `exportExternalPlugins` can walk: null (no keys) or an object of plugin records. */
  predicate PluginsOnly(v: Value) {
    v.Null? || (v.Obj? && forall k :: k in v.fields ==> v.fields[k].Obj?)
  }

  /**
   * `exportExternalPlugins(all_storage)`: for each channel whose user scripts the
   * snapshot holds, an object under the channel's name mapping file names to code,
   * the scripts taken in `orders[channel]`, the key order of that layer.
   */
  function ExportExternalPlugins(all: Record, orders: map<string, seq<string>>): (r: Record)
    requires forall c :: c in ExternalChannels && UserScriptsKey(c) in all ==> PluginsOnly(all[UserScriptsKey(c)])
    requires forall c :: c in ExternalChannels && UserScriptsKey(c) in all ==>
      c in orders && Catalog.Enumerates(orders[c], LayerEntries(all[UserScriptsKey(c)]))
    ensures forall c :: c in r <==> c in ExternalChannels && UserScriptsKey(c) in all
    ensures forall c :: c in r ==> r[c].Obj?
  {
    map c | c in ExternalChannels && UserScriptsKey(c) in all :: Obj(ExportChannel(LayerEntries(all[UserScriptsKey(c)]), orders[c]))
  }

  /**
   * When a channel's scripts have distinct file names, its export maps each of them
   * to that script's code: what `importExternalPlugins` reads back as its entries.
   */
  lemma ExportedCode(all: Record, orders: map<string, seq<string>>, c: string, uid: string)
    requires forall c :: c in ExternalChannels && UserScriptsKey(c) in all ==> PluginsOnly(all[UserScriptsKey(c)])
    requires forall c :: c in ExternalChannels && UserScriptsKey(c) in all ==>
      c in orders && Catalog.Enumerates(orders[c], LayerEntries(all[UserScriptsKey(c)]))
    requires c in ExternalChannels && UserScriptsKey(c) in all
    requires var layer := LayerEntries(all[UserScriptsKey(c)]);
      forall u, v :: u in layer && v in layer && FileKey(layer[u]) == FileKey(layer[v]) ==> u == v
    requires uid in LayerEntries(all[UserScriptsKey(c)])
    ensures var layer := LayerEntries(all[UserScriptsKey(c)]);
      Get(ExportExternalPlugins(all, orders)[c].fields, FileKey(layer[uid])) == Get(layer[uid], "code")
  {
    var layer := LayerEntries(all[UserScriptsKey(c)]);
    var order := orders[c];
    ExportLayerDistinct(layer, order);
    assert uid in order;
  }

  // ---------------------------------------------------------------------------
  // Imports

  /** A call an import makes. */
  datatype Call =
    | StorageSet(obj: Record)
    | SetChannel(channel: Option<Value>)
    | AddUserScripts(scripts: seq<PluginEdits.Script>)

  /**
   * `importIitcSettings(self, backup)`: the backup is written as it is, and the
   * channel is switched when the backup's channel (undefined when it names none) is
   * not the current one.
   */
  function ImportIitcSettings(current: Value, backup: Record): (calls: seq<Call>)
    ensures |calls| >= 1 && calls[0] == StorageSet(backup)
    ensures |calls| == 2 <==> !(Get(backup, "channel").Some? && StrictEq(backup["channel"], current))
    ensures |calls| == 2 ==> calls[1] == SetChannel(Get(backup, "channel"))
    ensures |calls| <= 2
  {
    var channel := Get(backup, "channel");
    if channel.Some? && StrictEq(channel.value, current) then [StorageSet(backup)]
    else [StorageSet(backup), SetChannel(channel)]
  }

  /**
   * Importing the exported settings of a store writes back what it already holds,
   * and switches the channel only when the store's channel is not the current one.
   */
  lemma IitcSettingsRoundTrip(store: Store, current: Value)
    requires "channel" in store && current.Str?
    ensures var calls := ImportIitcSettings(current, ExportIitcSettings(store));
      && Write(store, calls[0].obj) == store
      && (|calls| == 2 <==> store["channel"] != current)
  {
    assert "channel" in IitcSettingKeys;
  }

  /** One backup entry as a script: the descriptor of its header with its file name, and its code. */
  function ScriptOf(filename: string, code: string): (r: Option<PluginEdits.Script>)
    ensures r.Some? <==> HasBlock(code)
    ensures r.Some? ==>
      && r.value.code == code
      && Get(r.value.meta, "filename") == Some(Str(filename))
      && ParseMeta(code).Some?
      && forall k :: k != "filename" ==> Get(r.value.meta, k) == Get(ParseMeta(code).value, k)
  {
    match ParseMeta(code)
    case None => None
    case Some(meta) => Some(PluginEdits.Script(meta["filename" := Str(filename)], code))
  }

  /** The scripts in order, up to the first entry that has none: a TypeError there. */
  function Gather(scripts: seq<Option<PluginEdits.Script>>): (r: Result<seq<PluginEdits.Script>, string>)
    ensures r.Ok? ==> |r.value| == |scripts|
  {
    if |scripts| == 0 then Ok([])
    else
      match scripts[0]
      case None => Err("TypeError")
      case Some(sc) =>
        match Gather(scripts[1..])
        case Err(e) => Err(e)
        case Ok(rest) => Ok([sc] + rest)
  }

  lemma {:induction false} GatherFails(scripts: seq<Option<PluginEdits.Script>>)
    ensures Gather(scripts).Ok? <==> forall i :: 0 <= i < |scripts| ==> scripts[i].Some?
  {
    if |scripts| > 0 {
      GatherFails(scripts[1..]);
      assert forall i :: 1 <= i < |scripts| ==> scripts[i] == scripts[1..][i - 1];
    }
  }

  lemma {:induction false} GatherContents(scripts: seq<Option<PluginEdits.Script>>, i: nat)
    requires Gather(scripts).Ok? && i < |scripts|
    ensures scripts[i].Some? && Gather(scripts).value[i] == scripts[i].value
  {
    if i > 0 {
      GatherContents(scripts[1..], i - 1);
      assert scripts[i] == scripts[1..][i - 1];
    }
  }

  /** Each entry of a channel as a script, `None` where it has no header block. */
  function EntryScripts(entries: seq<(string, string)>): (r: seq<Option<PluginEdits.Script>>)
    ensures |r| == |entries| && forall i :: 0 <= i < |entries| ==> r[i] == ScriptOf(entries[i].0, entries[i].1)
  {
    seq(|entries|, i requires 0 <= i < |entries| => ScriptOf(entries[i].0, entries[i].1))
  }

  /** A channel's scripts; the first entry without a header block is a TypeError (`undefined['filename']`). */
  function ScriptsOf(entries: seq<(string, string)>): (r: Result<seq<PluginEdits.Script>, string>)
    ensures r.Ok? ==> |r.value| == |entries|
  {
    Gather(EntryScripts(entries))
  }

  /** The scripts are read exactly when every entry has a header block. */
  lemma ScriptsOfFails(entries: seq<(string, string)>)
    ensures ScriptsOf(entries).Ok? <==> forall i :: 0 <= i < |entries| ==> HasBlock(entries[i].1)
  {
    GatherFails(EntryScripts(entries));
  }

  /** Each script keeps its entry's code, and is described by its header with the entry's file name. */
  lemma ScriptsOfContents(entries: seq<(string, string)>, i: nat)
    requires ScriptsOf(entries).Ok? && i < |entries|
    ensures var sc := ScriptsOf(entries).value[i];
      && sc.code == entries[i].1
      && Get(sc.meta, "filename") == Some(Str(entries[i].0))
      && ParseMeta(entries[i].1).Some?
      && forall k :: k != "filename" ==> Get(sc.meta, k) == Get(ParseMeta(entries[i].1).value, k)
  {
    GatherContents(EntryScripts(entries), i);
  }

  /** The calls an import made, and whether it ended with an error. */
  datatype Import = Import(calls: seq<Call>, failed: bool)

  /** A channel's scripts, as read from its entries: the scripts, or the error reading them raised. */
  type Parsed = Result<seq<PluginEdits.Script>, string>

  /**
   * Channels in order: for each, a switch to it, then its scripts handed to
   * `addUserScripts`. A read error stops the run after the switch; an
   * `addUserScripts` that throws (`adds[i]` false) stops it after the call.
   */
  function Sequence(names: seq<string>, parsed: seq<Parsed>, adds: seq<bool>): (r: Import)
    requires |names| == |parsed| == |adds|
    ensures !r.failed ==> |r.calls| == 2 * |names|
  {
    if |names| == 0 then Import([], false)
    else
      var switch := SetChannel(Some(Str(names[0])));
      match parsed[0]
      case Err(_) => Import([switch], true)
      case Ok(scripts) =>
        if !adds[0] then Import([switch, AddUserScripts(scripts)], true)
        else
          var rest := Sequence(names[1..], parsed[1..], adds[1..]);
          Import([switch, AddUserScripts(scripts)] + rest.calls, rest.failed)
  }

  /** The sequence stops exactly when some channel's scripts could not be read or could not be added. */
  lemma {:induction false} SequenceFails(names: seq<string>, parsed: seq<Parsed>, adds: seq<bool>)
    requires |names| == |parsed| == |adds|
    ensures Sequence(names, parsed, adds).failed <==> exists i :: 0 <= i < |parsed| && (parsed[i].Err? || !adds[i])
  {
    if |names| > 0 {
      SequenceFails(names[1..], parsed[1..], adds[1..]);
      assert forall i :: 1 <= i < |parsed| ==> parsed[i] == parsed[1..][i - 1] && adds[i] == adds[1..][i - 1];
    }
  }

  /** A completed sequence switches to each channel in turn and hands it its scripts. */
  lemma {:induction false} SequenceCalls(names: seq<string>, parsed: seq<Parsed>, adds: seq<bool>, i: nat)
    requires |names| == |parsed| == |adds| && !Sequence(names, parsed, adds).failed && i < |names|
    ensures parsed[i].Ok? && adds[i]
    ensures Sequence(names, parsed, adds).calls[2 * i] == SetChannel(Some(Str(names[i])))
    ensures Sequence(names, parsed, adds).calls[2 * i + 1] == AddUserScripts(parsed[i].value)
  {
    if i > 0 {
      SequenceCalls(names[1..], parsed[1..], adds[1..], i - 1);
      assert names[i] == names[1..][i - 1] && parsed[i] == parsed[1..][i - 1] && adds[i] == adds[1..][i - 1];
    }
  }

  /** The names of a backup's channels, in order. */
  function Names(backup: seq<(string, seq<(string, string)>)>): (r: seq<string>)
    ensures |r| == |backup| && forall i :: 0 <= i < |backup| ==> r[i] == backup[i].0
  {
    seq(|backup|, i requires 0 <= i < |backup| => backup[i].0)
  }

  /** Each channel's scripts, as read from its entries. */
  function ParsedChannels(backup: seq<(string, seq<(string, string)>)>): (r: seq<Parsed>)
    ensures |r| == |backup| && forall i :: 0 <= i < |backup| ==> r[i] == ScriptsOf(backup[i].1)
  {
    seq(|backup|, i requires 0 <= i < |backup| => ScriptsOf(backup[i].1))
  }

  /**
   * The channels of a backup, in order: for each, a switch to it and the scripts
   * handed to `addUserScripts`; `adds[i]` says whether the i-th channel's call
   * returns normally.
   */
  function ImportChannels(backup: seq<(string, seq<(string, string)>)>, adds: seq<bool>): (r: Import)
    requires |adds| == |backup|
    ensures !r.failed ==> |r.calls| == 2 * |backup|
  {
    Sequence(Names(backup), ParsedChannels(backup), adds)
  }

  /** An import stops exactly at a channel holding an entry without a header block, or whose scripts cannot be added. */
  lemma ImportChannelsFails(backup: seq<(string, seq<(string, string)>)>, adds: seq<bool>)
    requires |adds| == |backup|
    ensures ImportChannels(backup, adds).failed <==> exists i :: 0 <= i < |backup| && (ScriptsOf(backup[i].1).Err? || !adds[i])
  {
    SequenceFails(Names(backup), ParsedChannels(backup), adds);
  }

  /** A completed import switches to each channel in turn and hands it that channel's scripts. */
  lemma ImportChannelsCalls(backup: seq<(string, seq<(string, string)>)>, adds: seq<bool>, i: nat)
    requires |adds| == |backup| && !ImportChannels(backup, adds).failed && i < |backup|
    ensures ImportChannels(backup, adds).calls[2 * i] == SetChannel(Some(Str(backup[i].0)))
    ensures ScriptsOf(backup[i].1).Ok?
    ensures ImportChannels(backup, adds).calls[2 * i + 1] == AddUserScripts(ScriptsOf(backup[i].1).value)
  {
    SequenceCalls(Names(backup), ParsedChannels(backup), adds, i);
  }

  /**
   * `importExternalPlugins(self, backup)`: the channels in turn, then back to the
   * channel the manager was on when the last one switched away from it. An entry
   * without a header block, or an `addUserScripts` that throws, stops the import
   * where it is.
   */
  function ImportExternalPlugins(current: Value, backup: seq<(string, seq<(string, string)>)>, adds: seq<bool>): (r: Import)
    requires |adds| == |backup|
    ensures var channels := ImportChannels(backup, adds);
      r.failed == channels.failed && channels.calls <= r.calls
    ensures r.failed ==> r == ImportChannels(backup, adds)
    ensures !r.failed ==> |r.calls| - 2 * |backup| in {0, 1}
  {
    var channels := ImportChannels(backup, adds);
    if channels.failed then channels
    else
      var last := if |backup| == 0 then current else Str(backup[|backup| - 1].0);
      if StrictEq(last, current) then channels
      else Import(channels.calls + [SetChannel(Some(current))], false)
  }

  /** The channel the manager is on after the calls: the last one switched to. */
  function FinalChannel(current: Value, calls: seq<Call>): Option<Value> {
    if |calls| == 0 then Some(current)
    else if calls[|calls| - 1].SetChannel? then calls[|calls| - 1].channel
    else FinalChannel(current, calls[..|calls| - 1])
  }

  /** Scripts handed over right after a switch leave the manager on the channel switched to. */
  lemma FinalAfterSwitch(current: Value, calls: seq<Call>, c: Value)
    requires |calls| >= 2 && calls[|calls| - 1].AddUserScripts? && calls[|calls| - 2] == SetChannel(Some(c))
    ensures FinalChannel(current, calls) == Some(c)
  {
    assert calls[..|calls| - 1][|calls| - 2] == calls[|calls| - 2];
  }

  /** After a completed sequence of some channels, the manager is on the last of them. */
  lemma SequenceEndsOnLast(current: Value, names: seq<string>, parsed: seq<Parsed>, adds: seq<bool>)
    requires |names| == |parsed| == |adds| && |names| > 0 && !Sequence(names, parsed, adds).failed
    ensures FinalChannel(current, Sequence(names, parsed, adds).calls) == Some(Str(names[|names| - 1]))
  {
    SequenceCalls(names, parsed, adds, |names| - 1);
    FinalAfterSwitch(current, Sequence(names, parsed, adds).calls, Str(names[|names| - 1]));
  }

  /** A completed import leaves the manager on the channel it started on. */
  lemma ImportEndsOnStartingChannel(current: Value, backup: seq<(string, seq<(string, string)>)>, adds: seq<bool>)
    requires |adds| == |backup| && !ImportExternalPlugins(current, backup, adds).failed
    ensures FinalChannel(current, ImportExternalPlugins(current, backup, adds).calls) == Some(current)
  {
    if |backup| > 0 {
      SequenceEndsOnLast(current, Names(backup), ParsedChannels(backup), adds);
    }
  }

  /**
   * An import of external plugins ends with an error exactly when some entry of the
   * backup has no header block or some channel's `addUserScripts` throws; an entry
   * without a header block fails it whatever the calls would do.
   */
  lemma ImportFailsWithoutHeader(current: Value, backup: seq<(string, seq<(string, string)>)>, adds: seq<bool>)
    requires |adds| == |backup|
    ensures ImportExternalPlugins(current, backup, adds).failed <==>
      exists i :: 0 <= i < |backup| && (!adds[i] || exists j :: 0 <= j < |backup[i].1| && !HasBlock(backup[i].1[j].1))
    ensures (exists i, j :: 0 <= i < |backup| && 0 <= j < |backup[i].1| && !HasBlock(backup[i].1[j].1)) ==>
      ImportExternalPlugins(current, backup, adds).failed
  {
    ImportChannelsFails(backup, adds);
    forall i | 0 <= i < |backup|
      ensures ScriptsOf(backup[i].1).Err? <==> exists j :: 0 <= j < |backup[i].1| && !HasBlock(backup[i].1[j].1)
    {
      ScriptsOfFails(backup[i].1);
    }
  }

  /**
   * When a channel's call is `PluginEdits.AddUserScripts` on the storage of the
   * moment, a channel holding a script without a uid stops the import.
   */
  lemma AddWithoutUidStops(current: Value, backup: seq<(string, seq<(string, string)>)>, adds: seq<bool>, i: nat, k: nat,
                           s: Manager.State, local: Record)
    requires |adds| == |backup| && i < |backup|
    requires ScriptsOf(backup[i].1).Ok? && k < |ScriptsOf(backup[i].1).value|
    requires Helpers.GetUID(ScriptsOf(backup[i].1).value[k].meta).None?
    requires PluginEdits.EditLayersOk(s, local)
    requires adds[i] == PluginEdits.AddUserScripts(s, local, ScriptsOf(backup[i].1).value).Ok?
    ensures ImportExternalPlugins(current, backup, adds).failed
  {
    ImportChannelsFails(backup, adds);
  }
}
