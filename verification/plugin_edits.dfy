/**
 * What the user does to plugins through the manager: turning a plugin on or off,
 * deleting it (`managePlugin`), and adding their own scripts (`addUserScripts`).
 *
 * Both read the channel's layers, change them in memory and save them; every
 * access to a plugin record that is not there is a TypeError, and then nothing is
 * saved.
 */
module PluginEdits {
  import opened Wrappers
  import opened Json
  import opened Helpers
  import opened Catalog
  import opened Channels
  import opened Manager

  /** A plugin record with its status set. */
  function WithStatus(p: Record, status: string): Record {
    p["status" := Str(status)]
  }

  /** A layer to save: an undefined layer is left out of the saved object. */
  function SavedLayer(l: Option<Plugins>): Option<Value> {
    match l
    case None => None
    case Some(p) => Some(LayerValue(p))
  }

  // ---------------------------------------------------------------------------
  // `managePlugin`

  /**
   * The layers after an action: the flat list, the installed plugins and the user
   * scripts (`None` when undefined), whether the user scripts are saved, and the
   * code handed to `inject_user_script`, if any.
   */
  datatype Edit = Edit(flat: Plugins, local: Option<Plugins>, user: Option<Plugins>, saveUser: bool, injected: Option<Value>)

  /** The record of a flat-list entry says it is a user script. */
  predicate MarkedUserEntry(f: Record) {
    Get(f, "user") == Some(Bool(true))
  }

  /** The flag `user` is absent or a boolean, as the manager writes it. */
  predicate PlainUserFlag(f: Record) {
    Get(f, "user").None? || Get(f, "user").value.Bool?
  }

  /** Where a catalogue plugin's code is downloaded from, the file name spliced into the URL as it is. */
  function FileUrl(host: string, f: Record): string {
    host + "/plugins/" + JsStringOpt(Get(f, "filename"))
  }

  /**
   * 'on': an installed catalogue plugin (`user` false) or a user script (`user`
   * true) is switched on in its own layer and in the flat list. Any other plugin is
   * downloaded; when that succeeds the flat-list record, now carrying the code,
   * becomes the installed record as well (the two are one object).
   */
  function TurnOn(flat: Plugins, local: Option<Plugins>, user: Option<Plugins>, uid: string, host: string, fetch: Fetch): (r: Result<Option<Edit>, string>)
    requires uid in flat
  {
    var f := flat[uid];
    var u := Get(f, "user");
    if u == Some(Bool(false)) && local.None? then Err("TypeError")
    else if (u == Some(Bool(false)) && uid in local.value) || u == Some(Bool(true)) then
      var flat' := flat[uid := WithStatus(f, "on")];
      if u == Some(Bool(true)) then
        if user.None? || uid !in user.value then Err("TypeError")
        else
          var user' := user.value[uid := WithStatus(user.value[uid], "on")];
          Ok(Some(Edit(flat', local, Some(user'), true, Get(user'[uid], "code"))))
      else
        var local' := local.value[uid := WithStatus(local.value[uid], "on")];
        Ok(Some(Edit(flat', Some(local'), user, true, Get(local'[uid], "code"))))
    else
      var response := fetch(FileUrl(host, f));
      if !Fetched(response) then Ok(None)
      else if local.None? then Err("TypeError")
      else
        var p := WithStatus(f, "on")["code" := Str(response.value)];
        Ok(Some(Edit(flat[uid := p], Some(local.value[uid := p]), user, false, Some(Str(response.value)))))
  }

  /** 'off': the plugin is switched off in the flat list and in its own layer. */
  function TurnOff(flat: Plugins, local: Option<Plugins>, user: Option<Plugins>, uid: string): (r: Result<Option<Edit>, string>)
    requires uid in flat
  {
    var f := flat[uid];
    var flat' := flat[uid := WithStatus(f, "off")];
    if TruthyOpt(Get(f, "user")) then
      if user.None? || uid !in user.value then Err("TypeError")
      else Ok(Some(Edit(flat', local, Some(user.value[uid := WithStatus(user.value[uid], "off")]), true, None)))
    else
      if local.None? || uid !in local.value then Err("TypeError")
      else Ok(Some(Edit(flat', Some(local.value[uid := WithStatus(local.value[uid], "off")]), user, true, None)))
  }

  /**
   * 'delete': the user script is removed; a catalogue plugin it overrode gets back a
   * copy of its installed record (empty when not installed), switched off, and any
   * other entry leaves the flat list.
   */
  function Remove(flat: Plugins, local: Option<Plugins>, user: Option<Plugins>, uid: string): (r: Result<Option<Edit>, string>)
    requires uid in flat
  {
    var overridden := TruthyOpt(Get(flat[uid], "override"));
    if overridden && local.None? then Err("TypeError")
    else if user.None? then Err("TypeError")
    else
      var flat' := if overridden then flat[uid := WithStatus(if uid in local.value then local.value[uid] else map[], "off")] else flat - {uid};
      Ok(Some(Edit(flat', local, Some(user.value - {uid}), true, None)))
  }

  /** The stored layers of the current channel have the shapes `managePlugin` works on. */
  predicate EditLayersOk(s: State, local: Record) {
    && LayerOrUnset(Get(local, Key(s, "plugins_flat")))
    && LayerOrUnset(Get(local, Key(s, "plugins_local")))
    && LayerOrUnset(Get(local, Key(s, "plugins_user")))
  }

  /**
   * `managePlugin(uid, action)` on the answer of `storage.get`: the edit of the
   * three layers, `None` when nothing is saved. The flat list is not defaulted, so
   * a plugin that is not in it, or a flat list that reads `null`, is a TypeError.
   */
  function ManagePlugin(s: State, local: Record, uid: string, action: string, fetch: Fetch): (r: Result<Option<Edit>, string>)
    requires EditLayersOk(s, local)
    ensures action != "on" && action != "off" && action != "delete" ==> r == Ok(None)
    ensures (action == "on" || action == "off" || action == "delete") && !(uid in StoredLayer(Get(local, Key(s, "plugins_flat"))).GetOr(map[])) ==> r.Err?
    ensures r.Ok? && r.value.None? && (action == "off" || action == "delete") ==> false
  {
    var flat := StoredLayer(Get(local, Key(s, "plugins_flat")));
    var installed := NullAsEmpty(Get(local, Key(s, "plugins_local")));
    var user := NullAsEmpty(Get(local, Key(s, "plugins_user")));
    if action != "on" && action != "off" && action != "delete" then Ok(None)
    else if flat.None? || uid !in flat.value then Err("TypeError")
    else if action == "on" then TurnOn(flat.value, installed, user, uid, Host(s), fetch)
    else if action == "off" then TurnOff(flat.value, installed, user, uid)
    else Remove(flat.value, installed, user, uid)
  }

  /** The object an edit hands to `#save`, before the channel prefix. */
  function EditOptions(e: Edit): (o: Record)
    ensures o.Keys <= ManagerFields
    ensures Get(o, "plugins_flat") == Some(LayerValue(e.flat))
    ensures Get(o, "plugins_local") == SavedLayer(e.local)
    ensures Get(o, "plugins_user") == if e.saveUser then SavedLayer(e.user) else None
  {
    var o := SetOpt(map["plugins_flat" := LayerValue(e.flat)], "plugins_local", SavedLayer(e.local));
    if e.saveUser then SetOpt(o, "plugins_user", SavedLayer(e.user)) else o
  }

  /** What `managePlugin` saves. */
  function ManagePluginWrites(s: State, local: Record, uid: string, action: string, fetch: Fetch): (ws: seq<Record>)
    requires EditLayersOk(s, local)
    ensures |ws| <= 1
    ensures |ws| == 1 <==> ManagePlugin(s, local, uid, action, fetch).Ok? && ManagePlugin(s, local, uid, action, fetch).value.Some?
  {
    match ManagePlugin(s, local, uid, action, fetch)
    case Ok(Some(e)) => [SaveOptions(s, EditOptions(e))]
    case _ => []
  }

  /**
   * After a successful 'on' or 'off', the flat list and the plugin's own layer (the
   * user scripts for a user script, the installed plugins otherwise) agree on the
   * new status.
   */
  predicate InSync(e: Edit, uid: string, status: string) {
    && uid in e.flat && Get(e.flat[uid], "status") == Some(Str(status))
    && if MarkedUserEntry(e.flat[uid])
       then e.user.Some? && uid in e.user.value && Get(e.user.value[uid], "status") == Some(Str(status))
       else e.local.Some? && uid in e.local.value && Get(e.local.value[uid], "status") == Some(Str(status))
  }

  /** 'on' and 'off' leave the flat list and the plugin's own layer in agreement. */
  lemma SwitchKeepsLayersInSync(s: State, local: Record, uid: string, action: string, fetch: Fetch)
    requires EditLayersOk(s, local)
    requires action == "on" || action == "off"
    requires uid in StoredLayer(Get(local, Key(s, "plugins_flat"))).GetOr(map[])
    requires PlainUserFlag(StoredLayer(Get(local, Key(s, "plugins_flat"))).value[uid])
    requires ManagePlugin(s, local, uid, action, fetch).Ok? && ManagePlugin(s, local, uid, action, fetch).value.Some?
    ensures InSync(ManagePlugin(s, local, uid, action, fetch).value.value, uid, action)
  {
    var flat := StoredLayer(Get(local, Key(s, "plugins_flat"))).value;
    var installed := NullAsEmpty(Get(local, Key(s, "plugins_local")));
    var user := NullAsEmpty(Get(local, Key(s, "plugins_user")));
    if action == "on" {
      TurnOnInSync(flat, installed, user, uid, Host(s), fetch);
    } else {
      TurnOffInSync(flat, installed, user, uid);
    }
  }

  lemma TurnOnInSync(flat: Plugins, local: Option<Plugins>, user: Option<Plugins>, uid: string, host: string, fetch: Fetch)
    requires uid in flat && PlainUserFlag(flat[uid])
    requires TurnOn(flat, local, user, uid, host, fetch).Ok? && TurnOn(flat, local, user, uid, host, fetch).value.Some?
    ensures InSync(TurnOn(flat, local, user, uid, host, fetch).value.value, uid, "on")
  {
  }

  lemma TurnOffInSync(flat: Plugins, local: Option<Plugins>, user: Option<Plugins>, uid: string)
    requires uid in flat && PlainUserFlag(flat[uid])
    requires TurnOff(flat, local, user, uid).Ok? && TurnOff(flat, local, user, uid).value.Some?
    ensures InSync(TurnOff(flat, local, user, uid).value.value, uid, "off")
  {
  }

  /** An action changes the plugin it names and no other. */
  ghost predicate OnlyTouches(flat: Plugins, local: Option<Plugins>, user: Option<Plugins>, e: Edit, uid: string) {
    && (forall k :: k != uid ==> (k in e.flat <==> k in flat))
    && (forall k :: k != uid && k in flat ==> e.flat[k] == flat[k])
    && (e.local.Some? <==> local.Some?)
    && (local.Some? ==> forall k :: k != uid ==> (k in e.local.value <==> k in local.value))
    && (local.Some? ==> forall k :: k != uid && k in local.value ==> e.local.value[k] == local.value[k])
    && (e.user.Some? <==> user.Some?)
    && (user.Some? ==> forall k :: k != uid ==> (k in e.user.value <==> k in user.value))
    && (user.Some? ==> forall k :: k != uid && k in user.value ==> e.user.value[k] == user.value[k])
  }

  /** Every action leaves the other plugins as they were. */
  lemma ManagePluginIsLocal(s: State, local: Record, uid: string, action: string, fetch: Fetch)
    requires EditLayersOk(s, local)
    requires ManagePlugin(s, local, uid, action, fetch).Ok? && ManagePlugin(s, local, uid, action, fetch).value.Some?
    ensures OnlyTouches(StoredLayer(Get(local, Key(s, "plugins_flat"))).value,
                        NullAsEmpty(Get(local, Key(s, "plugins_local"))),
                        NullAsEmpty(Get(local, Key(s, "plugins_user"))),
                        ManagePlugin(s, local, uid, action, fetch).value.value, uid)
  {
    var flat := StoredLayer(Get(local, Key(s, "plugins_flat"))).value;
    var installed := NullAsEmpty(Get(local, Key(s, "plugins_local")));
    var user := NullAsEmpty(Get(local, Key(s, "plugins_user")));
    if action == "on" {
      TurnOnIsLocal(flat, installed, user, uid, Host(s), fetch);
    } else if action == "off" {
      TurnOffIsLocal(flat, installed, user, uid);
    } else {
      RemoveIsLocal(flat, installed, user, uid);
    }
  }

  lemma TurnOnIsLocal(flat: Plugins, local: Option<Plugins>, user: Option<Plugins>, uid: string, host: string, fetch: Fetch)
    requires uid in flat
    requires TurnOn(flat, local, user, uid, host, fetch).Ok? && TurnOn(flat, local, user, uid, host, fetch).value.Some?
    ensures OnlyTouches(flat, local, user, TurnOn(flat, local, user, uid, host, fetch).value.value, uid)
  {
  }

  lemma TurnOffIsLocal(flat: Plugins, local: Option<Plugins>, user: Option<Plugins>, uid: string)
    requires uid in flat
    requires TurnOff(flat, local, user, uid).Ok?
    ensures TurnOff(flat, local, user, uid).value.Some?
    ensures OnlyTouches(flat, local, user, TurnOff(flat, local, user, uid).value.value, uid)
  {
  }

  lemma RemoveIsLocal(flat: Plugins, local: Option<Plugins>, user: Option<Plugins>, uid: string)
    requires uid in flat
    requires Remove(flat, local, user, uid).Ok?
    ensures Remove(flat, local, user, uid).value.Some?
    ensures OnlyTouches(flat, local, user, Remove(flat, local, user, uid).value.value, uid)
  {
  }

  /**
   * Switching on a catalogue plugin that is not installed installs it: once its
   * file is downloaded, its flat-list record and its installed record are the same,
   * switched on and carrying the code.
   */
  lemma TurnOnInstalls(flat: Plugins, local: Plugins, user: Option<Plugins>, uid: string, host: string, fetch: Fetch)
    requires uid in flat && uid !in local
    requires Get(flat[uid], "user") != Some(Bool(true))
    requires Fetched(fetch(FileUrl(host, flat[uid])))
    ensures var r := TurnOn(flat, Some(local), user, uid, host, fetch);
      && r.Ok? && r.value.Some?
      && var e := r.value.value;
         && e.local.Some? && uid in e.local.value && e.local.value[uid] == e.flat[uid]
         && Get(e.flat[uid], "status") == Some(Str("on"))
         && Get(e.flat[uid], "code") == Some(Str(fetch(FileUrl(host, flat[uid])).value))
         && e.injected == Get(e.flat[uid], "code")
  {
  }

  /**
   * Deleting removes the user script; the flat list keeps an entry only for a
   * catalogue plugin the script overrode, switched off and otherwise as installed.
   */
  lemma DeleteRemovesScript(flat: Plugins, local: Option<Plugins>, user: Option<Plugins>, uid: string)
    requires uid in flat
    requires Remove(flat, local, user, uid).Ok?
    ensures var e := Remove(flat, local, user, uid).value.value;
      && e.user.Some? && uid !in e.user.value
      && (uid in e.flat <==> TruthyOpt(Get(flat[uid], "override")))
      && (uid in e.flat ==>
            && Get(e.flat[uid], "status") == Some(Str("off"))
            && forall f :: f != "status" && uid in local.value ==> Get(e.flat[uid], f) == Get(local.value[uid], f))
  {
  }

  // ---------------------------------------------------------------------------
  // `addUserScripts`

  /** A script the user adds: its parsed header and its code. */
  datatype Script = Script(meta: Record, code: string)

  /** The layers `addUserScripts` edits: the categories, the flat list, the installed plugins and the user scripts. */
  datatype Books = Books(categories: Option<Record>, flat: Option<Plugins>, local: Option<Plugins>, user: Option<Plugins>)

  /** What the source throws for a script whose header yields no uid. */
  const BadHeader: string := "The plugin has an incorrect ==UserScript== header"

  /** The entry a category named only by a user script gets. */
  function CategoryEntry(name: Value): Value {
    Obj(map["name" := name, "description" := Str("")])
  }

  /** A user script as it is stored: its header with its uid, status 'on' and code. */
  function ScriptEntry(sc: Script, uid: string): Record {
    sc.meta["uid" := Str(uid)]["status" := Str("on")]["code" := Str(sc.code)]
  }

  /** A catalogue plugin overridden by a user script: switched on, with the script's code. */
  function OverrideEntry(f: Record, code: string): Record {
    f["status" := Str("on")]["code" := Str(code)]["override" := Bool(true)]["user" := Bool(true)]
  }

  /** The installed copy of an overridden plugin is switched off unless the flat list already had it off. */
  function SilenceInstalled(local: Plugins, f: Record, uid: string): (l: Plugins)
    ensures l.Keys == local.Keys
    ensures forall k :: k in l && k != uid ==> l[k] == local[k]
  {
    if uid in local && Get(f, "status") != Some(Str("off")) then local[uid := WithStatus(local[uid], "off")] else local
  }

  /**
   * One script of `addUserScripts`: a script without a uid throws; the script is
   * stored as a user script, and either overrides the catalogue plugin of the same
   * uid or is added to the flat list as a copy, its category ('Misc' when it names
   * none) created when missing.
   */
  function AddOne(b: Books, sc: Script): (r: Result<Books, string>)
    ensures GetUID(sc.meta).None? ==> r == Err(BadHeader)
  {
    match GetUID(sc.meta)
    case None => Err(BadHeader)
    case Some(uid) =>
      var entry := ScriptEntry(sc, uid);
      if b.user.None? || b.flat.None? then Err("TypeError")
      else if uid in b.flat.value then
        if b.local.None? then Err("TypeError")
        else
          var f := b.flat.value[uid];
          Ok(Books(b.categories, Some(b.flat.value[uid := OverrideEntry(f, sc.code)]),
                   Some(SilenceInstalled(b.local.value, f, uid)), Some(b.user.value[uid := entry])))
      else if b.categories.None? then Err("TypeError")
      else
        var named := Get(entry, "category");
        var entry' := if named.None? then entry["category" := Str("Misc")] else entry;
        var category := named.GetOr(Str("Misc"));
        var cats := b.categories.value;
        var cats' := if JsString(category) in cats then cats else cats[JsString(category) := CategoryEntry(category)];
        Ok(Books(Some(cats'), Some(b.flat.value[uid := entry'["user" := Bool(true)]]), b.local, Some(b.user.value[uid := entry'])))
  }

  /** Every layer `addUserScripts` touches is an object. */
  predicate AllPresent(b: Books) {
    b.categories.Some? && b.flat.Some? && b.local.Some? && b.user.Some?
  }

  /**
   * A user script added: listed in the flat list and among the user scripts, marked
   * as a user script and switched on in both, with the same code in both.
   */
  predicate Added(b: Books, uid: string) {
    && b.flat.Some? && b.user.Some?
    && uid in b.flat.value && uid in b.user.value
    && Get(b.flat.value[uid], "user") == Some(Bool(true))
    && Get(b.flat.value[uid], "status") == Some(Str("on"))
    && Get(b.user.value[uid], "status") == Some(Str("on"))
    && Get(b.flat.value[uid], "code") == Get(b.user.value[uid], "code")
  }

  /**
   * The category value a script is filed under when it is new to the flat list: its
   * own, whatever JSON value it is, or 'Misc'. For a name this is `Catalog.CategoryOf`.
   */
  function ScriptCategory(sc: Script): (v: Value)
    ensures CategoryIsName(sc.meta) ==> v == Str(Catalog.CategoryOf(sc.meta))
  {
    Get(sc.meta, "category").GetOr(Str("Misc"))
  }

  /** The categories of `b` are all in `b'`, unchanged. */
  predicate KeepsCategories(b: Books, b': Books) {
    b.categories.Some? ==> b'.categories.Some? && forall k :: k in b.categories.value ==>
      k in b'.categories.value && b'.categories.value[k] == b.categories.value[k]
  }

  /**
   * One script keeps every layer an object, adds its own uid, and keeps earlier
   * additions and the existing categories. A script new to the flat list is filed
   * under its category, which is then listed; one already there overrides it.
   */
  lemma AddOneSpec(b: Books, sc: Script)
    requires AddOne(b, sc).Ok?
    ensures GetUID(sc.meta).Some? && Added(AddOne(b, sc).value, GetUID(sc.meta).value)
    ensures AllPresent(b) ==> AllPresent(AddOne(b, sc).value)
    ensures forall uid :: Added(b, uid) ==> Added(AddOne(b, sc).value, uid)
    ensures AddOne(b, sc).value.flat.value.Keys == b.flat.value.Keys + {GetUID(sc.meta).value}
    ensures AddOne(b, sc).value.user.value.Keys == b.user.value.Keys + {GetUID(sc.meta).value}
    ensures KeepsCategories(b, AddOne(b, sc).value)
    ensures var uid := GetUID(sc.meta).value;
      var after := AddOne(b, sc).value;
      uid !in b.flat.value ==>
        && after.categories.Some? && JsString(ScriptCategory(sc)) in after.categories.value
        && Get(after.user.value[uid], "category") == Some(ScriptCategory(sc))
        && Get(after.flat.value[uid], "category") == Some(ScriptCategory(sc))
    ensures var uid := GetUID(sc.meta).value;
      var after := AddOne(b, sc).value;
      uid in b.flat.value ==>
        && after.categories == b.categories
        && Get(after.flat.value[uid], "override") == Some(Bool(true))
        && Get(after.flat.value[uid], "code") == Some(Str(sc.code))
  {
  }

  /** With every layer an object, a script with a uid is always added. */
  lemma AddOneSucceeds(b: Books, sc: Script)
    ensures AllPresent(b) && GetUID(sc.meta).Some? ==> AddOne(b, sc).Ok?
  {
  }

  /** The scripts, one after the other; the first error ends the loop. */
  function AddScripts(b: Books, scripts: seq<Script>): (r: Result<Books, string>)
    ensures (exists i :: 0 <= i < |scripts| && GetUID(scripts[i].meta).None?) ==> r.Err?
    decreases |scripts|
  {
    if |scripts| == 0 then Ok(b)
    else
      match AddOne(b, scripts[0])
      case Err(e) => Err(e)
      case Ok(b') =>
        var r := AddScripts(b', scripts[1..]);
        assert forall i :: 1 <= i < |scripts| ==> scripts[i] == scripts[1..][i - 1];
        r
  }

  /** The i-th script is new to the flat list when it is added: its uid is neither listed nor an earlier script's. */
  predicate NewToFlat(b: Books, scripts: seq<Script>, i: nat)
    requires b.flat.Some? && i < |scripts|
  {
    && GetUID(scripts[i].meta).Some?
    && GetUID(scripts[i].meta).value !in b.flat.value
    && forall j :: 0 <= j < i ==> GetUID(scripts[j].meta) != GetUID(scripts[i].meta)
  }

  /**
   * Every script of a successful run is added, and what was added before stays
   * added; the existing categories are kept, and every script new to the flat list
   * has its category listed.
   */
  lemma {:induction false} AddScriptsAdds(b: Books, scripts: seq<Script>)
    requires AddScripts(b, scripts).Ok?
    ensures forall i :: 0 <= i < |scripts| ==> GetUID(scripts[i].meta).Some? && Added(AddScripts(b, scripts).value, GetUID(scripts[i].meta).value)
    ensures forall uid :: Added(b, uid) ==> Added(AddScripts(b, scripts).value, uid)
    ensures KeepsCategories(b, AddScripts(b, scripts).value)
    ensures b.flat.Some? ==> forall i :: 0 <= i < |scripts| && NewToFlat(b, scripts, i) ==>
      var cats := AddScripts(b, scripts).value.categories;
      cats.Some? && JsString(ScriptCategory(scripts[i])) in cats.value
    decreases |scripts|
  {
    if |scripts| > 0 {
      var b' := AddOne(b, scripts[0]).value;
      AddOneSpec(b, scripts[0]);
      AddScriptsAdds(b', scripts[1..]);
      var r := AddScripts(b, scripts).value;
      assert r == AddScripts(b', scripts[1..]).value;
      forall i | 0 <= i < |scripts|
        ensures GetUID(scripts[i].meta).Some? && Added(r, GetUID(scripts[i].meta).value)
      {
        if i > 0 {
          assert scripts[i] == scripts[1..][i - 1];
        }
      }
      if b.flat.Some? {
        forall i | 0 <= i < |scripts| && NewToFlat(b, scripts, i)
          ensures r.categories.Some? && JsString(ScriptCategory(scripts[i])) in r.categories.value
        {
          if i > 0 {
            assert scripts[i] == scripts[1..][i - 1];
            forall j | 0 <= j < i - 1
              ensures GetUID(scripts[1..][j].meta) != GetUID(scripts[1..][i - 1].meta)
            {
              assert scripts[1..][j] == scripts[j + 1];
            }
            assert NewToFlat(b', scripts[1..], i - 1);
          }
        }
      }
    }
  }

  /** With every layer an object and every header yielding a uid, adding cannot fail. */
  lemma {:induction false} AddScriptsSucceeds(b: Books, scripts: seq<Script>)
    requires AllPresent(b)
    requires forall i :: 0 <= i < |scripts| ==> GetUID(scripts[i].meta).Some?
    ensures AddScripts(b, scripts).Ok? && AllPresent(AddScripts(b, scripts).value)
    decreases |scripts|
  {
    if |scripts| > 0 {
      AddOneSucceeds(b, scripts[0]);
      AddOneSpec(b, scripts[0]);
      AddScriptsSucceeds(AddOne(b, scripts[0]).value, scripts[1..]);
    }
  }

  /** The two facts above, as implications. */
  lemma AddScriptsOutcome(b: Books, scripts: seq<Script>)
    ensures AllPresent(b) && (forall i :: 0 <= i < |scripts| ==> GetUID(scripts[i].meta).Some?) ==> AddScripts(b, scripts).Ok?
    ensures AddScripts(b, scripts).Ok? ==>
      forall i :: 0 <= i < |scripts| ==> GetUID(scripts[i].meta).Some? && Added(AddScripts(b, scripts).value, GetUID(scripts[i].meta).value)
    ensures AddScripts(b, scripts).Ok? ==> KeepsCategories(b, AddScripts(b, scripts).value)
    ensures AddScripts(b, scripts).Ok? && b.flat.Some? ==> forall i :: 0 <= i < |scripts| && NewToFlat(b, scripts, i) ==>
      var cats := AddScripts(b, scripts).value.categories;
      cats.Some? && JsString(ScriptCategory(scripts[i])) in cats.value
  {
    if AllPresent(b) && (forall i :: 0 <= i < |scripts| ==> GetUID(scripts[i].meta).Some?) {
      AddScriptsSucceeds(b, scripts);
    }
    if AddScripts(b, scripts).Ok? {
      AddScriptsAdds(b, scripts);
    }
  }

  /** The layers as `addUserScripts` reads them: only the installed plugins and the user scripts default to empty. */
  function ReadBooks(s: State, local: Record): Books
    requires EditLayersOk(s, local)
  {
    var categories := Get(local, Key(s, "categories"));
    Books(if categories.Some? && categories.value.Obj? then Some(categories.value.fields) else None,
          StoredLayer(Get(local, Key(s, "plugins_flat"))),
          NullAsEmpty(Get(local, Key(s, "plugins_local"))),
          NullAsEmpty(Get(local, Key(s, "plugins_user"))))
  }

  /** The object `addUserScripts` hands to `#save`: a layer it never turned into an object is saved as it was read. */
  function BooksOptions(s: State, local: Record, b: Books): (o: Record)
    ensures o.Keys <= ManagerFields
  {
    var categories := match b.categories case Some(c) => Some(Obj(c)) case None => Get(local, Key(s, "categories"));
    var flat := match b.flat case Some(f) => Some(LayerValue(f)) case None => Get(local, Key(s, "plugins_flat"));
    SetOpt(SetOpt(SetOpt(SetOpt(map[], "categories", categories), "plugins_flat", flat), "plugins_local", SavedLayer(b.local)),
           "plugins_user", SavedLayer(b.user))
  }

  /**
   * `addUserScripts(scripts)` on the answer of `storage.get`: the object saved, or
   * the error thrown, in which case nothing is saved. Every script added is listed
   * and switched on both as a user script and in the flat list.
   */
  function AddUserScripts(s: State, local: Record, scripts: seq<Script>): (r: Result<Record, string>)
    requires EditLayersOk(s, local)
    ensures (exists i :: 0 <= i < |scripts| && GetUID(scripts[i].meta).None?) ==> r.Err?
    ensures AllPresent(ReadBooks(s, local)) && (forall i :: 0 <= i < |scripts| ==> GetUID(scripts[i].meta).Some?) ==> r.Ok?
    ensures r.Ok? ==> AddScripts(ReadBooks(s, local), scripts).Ok?
    ensures r.Ok? ==> r.value == SaveOptions(s, BooksOptions(s, local, AddScripts(ReadBooks(s, local), scripts).value))
    ensures r.Ok? ==> forall i :: 0 <= i < |scripts| ==> GetUID(scripts[i].meta).Some? && Added(AddScripts(ReadBooks(s, local), scripts).value, GetUID(scripts[i].meta).value)
    ensures r.Ok? ==> KeepsCategories(ReadBooks(s, local), AddScripts(ReadBooks(s, local), scripts).value)
    ensures r.Ok? && ReadBooks(s, local).flat.Some? ==> forall i :: 0 <= i < |scripts| && NewToFlat(ReadBooks(s, local), scripts, i) ==>
      var cats := AddScripts(ReadBooks(s, local), scripts).value.categories;
      cats.Some? && JsString(ScriptCategory(scripts[i])) in cats.value
  {
    AddScriptsOutcome(ReadBooks(s, local), scripts);
    match AddScripts(ReadBooks(s, local), scripts)
    case Err(e) => Err(e)
    case Ok(b) => Ok(SaveOptions(s, BooksOptions(s, local, b)))
  }

  /**
   * Adding a script that overrides an installed catalogue plugin which was on
   * switches the installed copy off, so that only the user's version runs.
   */
  lemma OverrideSilencesInstalled(b: Books, sc: Script)
    requires AllPresent(b) && GetUID(sc.meta).Some?
    requires var uid := GetUID(sc.meta).value;
      uid in b.flat.value && uid in b.local.value && Get(b.flat.value[uid], "status") != Some(Str("off"))
    ensures var uid := GetUID(sc.meta).value;
      var after := AddOne(b, sc).value;
      && Get(after.local.value[uid], "status") == Some(Str("off"))
      && Get(after.flat.value[uid], "override") == Some(Bool(true))
  {
  }
}
