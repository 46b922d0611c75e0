/**
 * The plugin catalogue (`meta.json`) and the three layers of plugin records the
 * worker and the manager keep per channel: the flat catalogue, the installed
 * catalogue plugins, and the user's own scripts.
 */
module Catalog {
  import opened Wrappers
  import opened Text
  import opened Json
  import opened Helpers
  import opened MetaHeader

  /** Plugin records by uid. */
  type Plugins = map<string, Record>

  /** A stored layer of plugins: an object whose entries are all plugin records. */
  predicate IsLayer(v: Value) {
    v.Obj? && forall k :: k in v.fields ==> v.fields[k].Obj?
  }

  /** The plugins a stored layer holds. */
  function AsPlugins(v: Value): Plugins
    requires IsLayer(v)
  {
    map k | k in v.fields :: v.fields[k].fields
  }

  /** A layer as it is stored. */
  function LayerValue(p: Plugins): (v: Value)
    ensures IsLayer(v) && AsPlugins(v) == p
  {
    var v := Obj(map k | k in p :: Obj(p[k]));
    assert AsPlugins(v) == p;
    v
  }

  /** What a read of a layer may give: nothing, null, or a layer. */
  predicate LayerOrUnset(v: Option<Value>) {
    IsSet(v) ==> IsLayer(v.value)
  }

  /** The layer read, `None` when it is null or undefined. */
  function StoredLayer(v: Option<Value>): (r: Option<Plugins>)
    requires LayerOrUnset(v)
    ensures r.Some? <==> IsSet(v)
    ensures r.Some? ==> LayerValue(r.value) == v.value
  {
    if IsSet(v) then
      assert LayerValue(AsPlugins(v.value)) == v.value;
      Some(AsPlugins(v.value))
    else None
  }

  // ---------------------------------------------------------------------------
  // The catalogue

  /** One entry of `categories`: its own fields and, when present, its plugins in key order. */
  datatype Category = Category(name: string, fields: Record, plugins: Option<seq<Record>>)

  /** `meta.json`: its top-level fields and its categories in key order, if it has any. */
  datatype Catalogue = Catalogue(fields: Record, categories: Option<seq<Category>>)

  /** The shape a JSON object guarantees: category names are distinct keys, and `plugins` is held apart. */
  predicate WellFormed(c: Catalogue) {
    c.categories.Some? ==>
      var cs := c.categories.value;
      && (forall i, j :: 0 <= i < j < |cs| ==> cs[i].name != cs[j].name)
      && (forall i :: 0 <= i < |cs| ==> "plugins" !in cs[i].fields)
  }

  /** The uid a plugin is stored with (`null` when it has none). */
  function UidValue(p: Record): Value {
    match GetUID(p)
    case Some(u) => Str(u)
    case None => Null
  }

  /** The key a plugin is filed under: its uid, or "null". */
  function UidKey(p: Record): (k: string)
    ensures k == JsString(UidValue(p))
  {
    match GetUID(p)
    case Some(u) => u
    case None => "null"
  }

  /** A catalogue plugin as the flat list records it: uid, status 'off' and its category. */
  function Stamp(p: Record, cat: string): Record {
    p["uid" := UidValue(p)]["status" := Str("off")]["category" := Str(cat)]
  }

  /** The categories whose plugins are no longer offered. */
  predicate Retired(name: string) {
    name == "Obsolete" || name == "Deleted"
  }

  /** A stamped flat-list entry: its key is the text of its uid, its status 'off', its category a name. */
  predicate StampedEntry(key: string, p: Record, skipRetired: bool) {
    && "uid" in p && key == JsString(p["uid"])
    && Get(p, "status") == Some(Str("off"))
    && "category" in p && p["category"].Str?
    && (skipRetired ==> !Retired(p["category"].s))
  }

  /** The stamped plugins of one category, in key order. */
  function CategoryEntries(c: Category, skipRetired: bool): (r: seq<(string, Record)>)
    ensures forall i :: 0 <= i < |r| ==> StampedEntry(r[i].0, r[i].1, skipRetired)
  {
    if (skipRetired && Retired(c.name)) || c.plugins.None? then []
    else
      var ps := c.plugins.value;
      seq(|ps|, i requires 0 <= i < |ps| => (UidKey(ps[i]), Stamp(ps[i], c.name)))
  }

  /** Every plugin of every category, stamped, in the order the flat list is built. */
  function Entries(cs: seq<Category>, skipRetired: bool): (r: seq<(string, Record)>)
    ensures forall i :: 0 <= i < |r| ==> StampedEntry(r[i].0, r[i].1, skipRetired)
  {
    if |cs| == 0 then []
    else CategoryEntries(cs[0], skipRetired) + Entries(cs[1..], skipRetired)
  }

  /** A uid is never the name of a retired category: it contains '+' or is "null". */
  lemma UidKeyNotRetired(p: Record)
    ensures !Retired(UidKey(p))
  {
    if GetUID(p).Some? {
      UidHasSeparator(p);
      var u := GetUID(p).value;
      assert !('+' in "Obsolete") && !('+' in "Deleted");
    } else {
      assert UidKey(p) == "null";
    }
  }

  /** The map an object becomes when the entries are assigned in order: a later key overwrites an earlier one. */
  function LastWins(es: seq<(string, Record)>): (r: Plugins)
    ensures forall k :: k in r <==> exists i :: 0 <= i < |es| && es[i].0 == k
    ensures forall k :: k in r ==>
      exists i :: 0 <= i < |es| && es[i].0 == k && r[k] == es[i].1 && forall j :: i < j < |es| ==> es[j].0 != k
  {
    if |es| == 0 then map[]
    else
      var last := es[|es| - 1];
      var front := LastWins(es[..|es| - 1]);
      assert forall i :: 0 <= i < |es| - 1 ==> es[..|es| - 1][i] == es[i];
      front[last.0 := last.1]
  }

  /**
   * `_getPluginsFlat` (`skipRetired`) and the manager's `#getPluginsFlat`: every plugin
   * of the catalogue under its uid, stamped; plugins sharing a uid keep the last one.
   */
  function PluginsFlat(c: Catalogue, skipRetired: bool): (r: Plugins)
    ensures forall k :: k in r ==> StampedEntry(k, r[k], skipRetired)
    ensures forall k :: k in r ==> !Retired(k)
  {
    match c.categories
    case None => map[]
    case Some(cs) =>
      var es := Entries(cs, skipRetired);
      var r := LastWins(es);
      assert forall k :: k in r ==> !Retired(k) by {
        forall k | k in r
          ensures !Retired(k)
        {
          var i :| 0 <= i < |es| && es[i].0 == k && r[k] == es[i].1;
          EntryKeyIsUid(cs, skipRetired, i);
        }
      }
      r
  }

  /** Each entry's key is the uid key of some catalogue plugin. */
  lemma {:induction false} EntryKeyIsUid(cs: seq<Category>, skipRetired: bool, i: nat)
    requires i < |Entries(cs, skipRetired)|
    ensures !Retired(Entries(cs, skipRetired)[i].0)
  {
    var head := CategoryEntries(cs[0], skipRetired);
    if i < |head| {
      var ps := cs[0].plugins.value;
      UidKeyNotRetired(ps[i]);
    } else {
      EntryKeyIsUid(cs[1..], skipRetired, i - |head|);
    }
  }

  /** Every plugin of an offered category has an entry, in category order. */
  lemma {:induction false} EntriesCover(cs: seq<Category>, skipRetired: bool, k: nat, j: nat)
    requires k < |cs| && cs[k].plugins.Some? && j < |cs[k].plugins.value|
    requires !(skipRetired && Retired(cs[k].name))
    ensures (UidKey(cs[k].plugins.value[j]), Stamp(cs[k].plugins.value[j], cs[k].name)) in Entries(cs, skipRetired)
  {
    var head := CategoryEntries(cs[0], skipRetired);
    if k == 0 {
      assert head[j] == Entries(cs, skipRetired)[j];
    } else {
      EntriesCover(cs[1..], skipRetired, k - 1, j);
      assert Entries(cs, skipRetired) == head + Entries(cs[1..], skipRetired);
    }
  }

  /** `_getCategories`: each category's own fields, without its plugin list. */
  function Categories(c: Catalogue): (r: Record)
    requires WellFormed(c)
    ensures c.categories.None? ==> r == map[]
    ensures c.categories.Some? ==>
      && r.Keys == (set i | 0 <= i < |c.categories.value| :: c.categories.value[i].name)
      && forall i :: 0 <= i < |c.categories.value| ==>
           r[c.categories.value[i].name] == Obj(c.categories.value[i].fields)
    ensures forall k :: k in r ==> r[k].Obj? && "plugins" !in r[k].fields
  {
    match c.categories
    case None => map[]
    case Some(cs) =>
      map k | k in (set i | 0 <= i < |cs| :: cs[i].name) :: Obj(FieldsOf(cs, k))
  }

  /** The fields of the category called `name`. */
  function FieldsOf(cs: seq<Category>, name: string): (f: Record)
    requires exists i :: 0 <= i < |cs| && cs[i].name == name
    ensures forall i :: 0 <= i < |cs| && cs[i].name == name && (forall j :: 0 <= j < i ==> cs[j].name != name) ==> f == cs[i].fields
  {
    if cs[0].name == name then cs[0].fields else FieldsOf(cs[1..], name)
  }

  // ---------------------------------------------------------------------------
  // Categories of user scripts

  /** A user script's category is a name, or missing. */
  predicate CategoryIsName(p: Record) {
    "category" in p ==> p["category"].Str?
  }

  /** The category a user script is listed under: its own, or 'Misc'. */
  function CategoryOf(p: Record): string
    requires CategoryIsName(p)
  {
    if "category" in p then p["category"].s else "Misc"
  }

  /** The entry created for a category only user scripts name. */
  function NewCategory(name: string): Value {
    Obj(map["name" := Str(name), "description" := Str("")])
  }

  /** The categories the user scripts are listed under. */
  function NamedCategories(user: Plugins): (r: set<string>)
    requires forall uid :: uid in user ==> CategoryIsName(user[uid])
    ensures forall uid :: uid in user ==> CategoryOf(user[uid]) in r
    ensures forall k :: k in r ==> exists uid :: uid in user && CategoryOf(user[uid]) == k
  {
    set uid | uid in user :: CategoryOf(user[uid])
  }

  /** The entries `_rebuildingCategories` adds for the `named` categories `categories` lacks. */
  function Added(categories: Record, named: set<string>): Record {
    map k | k in named && k !in categories :: NewCategory(k)
  }

  /**
   * `_rebuildingCategories`: every category a user script is listed under exists
   * afterwards; existing entries are kept as they are, and nothing else is added.
   */
  function RebuildCategories(categories: Record, user: Plugins): (r: Record)
    requires forall uid :: uid in user ==> CategoryIsName(user[uid])
    ensures forall uid :: uid in user ==> CategoryOf(user[uid]) in r
    ensures forall k :: k in categories ==> k in r && r[k] == categories[k]
    ensures forall k :: k in r && k !in categories ==>
      r[k] == NewCategory(k) && exists uid :: uid in user && CategoryOf(user[uid]) == k
  {
    categories + Added(categories, NamedCategories(user))
  }

  /** Nothing is added for categories that already exist. */
  lemma AddedNothing(categories: Record, named: set<string>)
    requires named <= categories.Keys
    ensures categories + Added(categories, named) == categories
  {
    assert Added(categories, named) == map[];
  }

  /** Rebuilding the categories a second time changes nothing. */
  lemma RebuildCategoriesIdempotent(categories: Record, user: Plugins)
    requires forall uid :: uid in user ==> CategoryIsName(user[uid])
    ensures RebuildCategories(RebuildCategories(categories, user), user) == RebuildCategories(categories, user)
  {
    AddedNothing(RebuildCategories(categories, user), NamedCategories(user));
  }

  // ---------------------------------------------------------------------------
  // Merging the layers (`_rebuildingArrayCategoriesPlugins`)

  /** A catalogue record carrying the status of its installed copy. */
  function WithLocalStatus(p: Record, installed: Record): (r: Record)
    ensures Get(r, "status") == Get(installed, "status")
    ensures forall f :: f != "status" ==> Get(r, f) == Get(p, f)
  {
    SetOpt(p, "status", Get(installed, "status"))
  }

  /** A catalogue record overridden by a user script of the same uid. */
  function Overridden(p: Record, script: Record): (r: Record)
    ensures Get(r, "user") == Some(Bool(true)) && Get(r, "status") == Get(script, "status")
  {
    SetOpt(SetOpt(p, "status", Get(script, "status")), "code", Get(script, "code"))["override" := Bool(true)]["user" := Bool(true)]
  }

  /** A user script marked as such. */
  function MarkedUser(script: Record): (r: Record)
    ensures Get(r, "user") == Some(Bool(true)) && Get(r, "status") == Get(script, "status")
  {
    script["user" := Bool(true)]
  }

  /** What merging the layers yields: the flat list, and the user scripts as they are saved afterwards. */
  datatype Merged = Merged(flat: Plugins, user: Plugins)

  /**
   * The merge: installed plugins set the status of their catalogue record, user
   * scripts override catalogue records of the same uid or are added to the list, and
   * every user entry is marked `user`. A user script added to the list is the same
   * object as the saved one, so the saved user layer carries the mark as well. An
   * installed plugin missing from the catalogue is a TypeError.
   */
  function MergeLayers(raw: Plugins, local: Plugins, user: Plugins): (r: Result<Merged, string>)
    ensures r.Ok? <==> local.Keys <= raw.Keys
    ensures r.Ok? ==> r.value.flat.Keys == raw.Keys + user.Keys && r.value.user.Keys == user.Keys
    ensures r.Ok? ==> forall uid :: uid in user ==>
      Get(r.value.flat[uid], "user") == Some(Bool(true)) && Get(r.value.flat[uid], "status") == Get(user[uid], "status")
    ensures r.Ok? ==> forall uid :: uid in raw && uid !in user ==>
      forall f :: f != "status" ==> Get(r.value.flat[uid], f) == Get(raw[uid], f)
    ensures r.Ok? ==> forall uid :: uid in local && uid !in user ==>
      Get(r.value.flat[uid], "status") == Get(local[uid], "status")
  {
    if !(local.Keys <= raw.Keys) then Err("TypeError")
    else Ok(Merged(FlatOf(raw, local, user), SavedUserOf(raw, user)))
  }

  /** Each uid's merged record: the user script's layer wins over the installed one, which wins over the catalogue. */
  function FlatOf(raw: Plugins, local: Plugins, user: Plugins): Plugins
    requires local.Keys <= raw.Keys
  {
    map uid | uid in raw.Keys + user.Keys ::
      if uid in user then (if uid in raw then Overridden(raw[uid], user[uid]) else MarkedUser(user[uid]))
      else if uid in local then WithLocalStatus(raw[uid], local[uid])
      else raw[uid]
  }

  /** The user scripts after the merge: those not in the catalogue carry the `user` mark. */
  function SavedUserOf(raw: Plugins, user: Plugins): Plugins {
    map uid | uid in user :: if uid in raw then user[uid] else MarkedUser(user[uid])
  }

  /** `order` lists the keys of a map, each once: what `Object.keys` yields. */
  ghost predicate Enumerates<T>(order: seq<string>, m: map<string, T>) {
    && (forall i, j :: 0 <= i < j < |order| ==> order[i] != order[j])
    && (forall k :: k in m <==> k in order)
  }

  /** The installed-plugins loop, one key after the other. */
  function LocalLoop(data: Plugins, local: Plugins, order: seq<string>): (r: Result<Plugins, string>)
    requires forall i :: 0 <= i < |order| ==> order[i] in local
    ensures r.Err? ==> r.error == "TypeError"
  {
    if |order| == 0 then Ok(data)
    else
      var uid := order[0];
      if uid !in data then Err("TypeError")
      else LocalLoop(data[uid := WithLocalStatus(data[uid], local[uid])], local, order[1..])
  }

  /** The user-scripts loop, one key after the other. */
  function UserLoop(data: Plugins, user: Plugins, saved: Plugins, order: seq<string>): Merged
    requires forall i :: 0 <= i < |order| ==> order[i] in user
    decreases |order|
  {
    if |order| == 0 then Merged(data, saved)
    else
      var uid := order[0];
      if uid in data then UserLoop(data[uid := Overridden(data[uid], user[uid])], user, saved, order[1..])
      else UserLoop(data[uid := MarkedUser(user[uid])], user, saved[uid := MarkedUser(user[uid])], order[1..])
  }

  /** The merge as the source runs it: a copy of the catalogue, then the two loops in key order. */
  function MergeLoops(raw: Plugins, local: Plugins, localOrder: seq<string>, user: Plugins, userOrder: seq<string>): Result<Merged, string>
    requires Enumerates(localOrder, local) && Enumerates(userOrder, user)
  {
    match LocalLoop(raw, local, localOrder)
    case Err(e) => Err(e)
    case Ok(data) => Ok(UserLoop(data, user, user, userOrder))
  }

  /** The installed-plugins loop touches exactly the listed keys, whatever their order. */
  lemma {:induction false} LocalLoopSpec(data: Plugins, local: Plugins, order: seq<string>)
    requires forall i :: 0 <= i < |order| ==> order[i] in local
    requires forall i, j :: 0 <= i < j < |order| ==> order[i] != order[j]
    ensures LocalLoop(data, local, order).Ok? <==> forall i :: 0 <= i < |order| ==> order[i] in data
    ensures LocalLoop(data, local, order).Ok? ==>
      LocalLoop(data, local, order).value == map uid | uid in data ::
        if uid in order then WithLocalStatus(data[uid], local[uid]) else data[uid]
  {
    if |order| > 0 {
      var uid := order[0];
      if uid in data {
        var data' := data[uid := WithLocalStatus(data[uid], local[uid])];
        LocalLoopSpec(data', local, order[1..]);
        assert forall k :: k in order[1..] <==> k in order && k != uid;
      }
    }
  }

  /** The keys a key list names. */
  function Members(order: seq<string>): (r: set<string>)
    ensures forall k :: k in r <==> k in order
  {
    set k | k in order
  }

  /** What the user-scripts loop leaves in the flat list for the keys it has visited. */
  function UserFlat(data: Plugins, user: Plugins, order: seq<string>): Plugins
    requires forall i :: 0 <= i < |order| ==> order[i] in user
  {
    map uid | uid in data.Keys + Members(order) ::
      if uid in order then (if uid in data then Overridden(data[uid], user[uid]) else MarkedUser(user[uid]))
      else data[uid]
  }

  /** The user-scripts loop, whatever the key order, on the flat list. */
  lemma {:induction false} UserLoopFlat(data: Plugins, user: Plugins, saved: Plugins, order: seq<string>)
    requires forall i :: 0 <= i < |order| ==> order[i] in user
    requires forall i, j :: 0 <= i < j < |order| ==> order[i] != order[j]
    ensures UserLoop(data, user, saved, order).flat == UserFlat(data, user, order)
    decreases |order|
  {
    if |order| > 0 {
      var uid := order[0];
      var v := if uid in data then Overridden(data[uid], user[uid]) else MarkedUser(user[uid]);
      var saved' := if uid in data then saved else saved[uid := MarkedUser(user[uid])];
      UserLoopFlat(data[uid := v], user, saved', order[1..]);
      UserFlatStep(data, user, order);
    }
  }

  /** Visiting the first listed key, then the rest, leaves what visiting them all does. */
  lemma UserFlatStep(data: Plugins, user: Plugins, order: seq<string>)
    requires forall i :: 0 <= i < |order| ==> order[i] in user
    requires forall i, j :: 0 <= i < j < |order| ==> order[i] != order[j]
    requires |order| > 0
    ensures var uid := order[0];
      var v := if uid in data then Overridden(data[uid], user[uid]) else MarkedUser(user[uid]);
      UserFlat(data[uid := v], user, order[1..]) == UserFlat(data, user, order)
  {
    var uid := order[0];
    var rest := order[1..];
    assert forall k :: k in rest <==> k in order && k != uid;
    var v := if uid in data then Overridden(data[uid], user[uid]) else MarkedUser(user[uid]);
    var lhs := UserFlat(data[uid := v], user, rest);
    var rhs := UserFlat(data, user, order);
    assert lhs.Keys == rhs.Keys;
    forall k | k in lhs
      ensures lhs[k] == rhs[k]
    {
      if k != uid {
        assert k in rest <==> k in order;
      }
    }
  }

  /** The user-scripts loop, whatever the key order, on the saved user scripts. */
  lemma {:induction false} UserLoopSaved(data: Plugins, user: Plugins, saved: Plugins, order: seq<string>)
    requires forall i :: 0 <= i < |order| ==> order[i] in user && order[i] in saved
    requires forall i, j :: 0 <= i < j < |order| ==> order[i] != order[j]
    ensures UserLoop(data, user, saved, order).user == map uid | uid in saved ::
      if uid in order && uid !in data then MarkedUser(user[uid]) else saved[uid]
    decreases |order|
  {
    if |order| > 0 {
      var uid := order[0];
      var rest := order[1..];
      assert forall k :: k in rest <==> k in order && k != uid;
      if uid in data {
        UserLoopSaved(data[uid := Overridden(data[uid], user[uid])], user, saved, rest);
      } else {
        UserLoopSaved(data[uid := MarkedUser(user[uid])], user, saved[uid := MarkedUser(user[uid])], rest);
      }
    }
  }

  /** Setting a field twice keeps the second value. */
  lemma SetOptTwice(p: Record, key: string, a: Option<Value>, b: Option<Value>)
    ensures SetOpt(SetOpt(p, key, a), key, b) == SetOpt(p, key, b)
  {
  }

  /** The loops give the same result in every key order, and it is `MergeLayers`. */
  lemma MergeOrderIrrelevant(raw: Plugins, local: Plugins, localOrder: seq<string>, user: Plugins, userOrder: seq<string>)
    requires Enumerates(localOrder, local) && Enumerates(userOrder, user)
    ensures MergeLoops(raw, local, localOrder, user, userOrder) == MergeLayers(raw, local, user)
  {
    LocalLoopSpec(raw, local, localOrder);
    var r := LocalLoop(raw, local, localOrder);
    if r.Ok? {
      assert local.Keys <= raw.Keys;
      var data := r.value;
      UserLoopFlat(data, user, user, userOrder);
      UserLoopSaved(data, user, user, userOrder);
      MergedFlat(raw, local, user, localOrder, userOrder, data);
      MergedUser(raw, user, userOrder, data);
      var m := UserLoop(data, user, user, userOrder);
      assert MergeLoops(raw, local, localOrder, user, userOrder) == Ok(m);
      assert m == MergeLayers(raw, local, user).value;
    } else {
      assert !(local.Keys <= raw.Keys);
    }
  }

  lemma MergedFlat(raw: Plugins, local: Plugins, user: Plugins, localOrder: seq<string>, userOrder: seq<string>, data: Plugins)
    requires local.Keys <= raw.Keys
    requires forall k :: k in local <==> k in localOrder
    requires data == map uid | uid in raw :: if uid in localOrder then WithLocalStatus(raw[uid], local[uid]) else raw[uid]
    requires forall i :: 0 <= i < |userOrder| ==> userOrder[i] in user
    requires forall k :: k in user <==> k in userOrder
    ensures UserFlat(data, user, userOrder) == FlatOf(raw, local, user)
  {
    var got := UserFlat(data, user, userOrder);
    var expected := FlatOf(raw, local, user);
    assert got.Keys == expected.Keys;
    forall uid | uid in got
      ensures got[uid] == expected[uid]
    {
      if uid in user && uid in raw && uid in local {
        SetOptTwice(raw[uid], "status", Get(local[uid], "status"), Get(user[uid], "status"));
        assert got[uid] == Overridden(WithLocalStatus(raw[uid], local[uid]), user[uid]);
      }
    }
  }

  lemma MergedUser(raw: Plugins, user: Plugins, userOrder: seq<string>, data: Plugins)
    requires forall k :: k in user <==> k in userOrder
    requires data.Keys == raw.Keys
    ensures (map uid | uid in user :: if uid in userOrder && uid !in data then MarkedUser(user[uid]) else user[uid])
      == SavedUserOf(raw, user)
  {
  }

  // ---------------------------------------------------------------------------
  // Refreshing plugin code

  /** A plain request (`_getUrl(url)`): the response text, `None` on a failed request. */
  type Fetch = string -> Option<string>

  /** A response the source accepts: a non-empty text. */
  predicate Fetched(r: Option<string>) {
    r.Some? && r.value != ""
  }

  /** Where a catalogue plugin's code is downloaded from. */
  function PluginUrl(host: string, filename: Value): string {
    host + "/plugins/" + JsString(filename)
  }

  /** An installed plugin stays installed while it has a file name and is still in the catalogue. */
  predicate StaysInstalled(flat: Plugins, uid: string, p: Record) {
    TruthyOpt(Get(p, "filename")) && uid in flat
  }

  /** An installed plugin with its code refreshed when the download succeeds. */
  function Refreshed(p: Record, host: string, fetch: Fetch): Record
    requires TruthyOpt(Get(p, "filename"))
  {
    var r := fetch(PluginUrl(host, p["filename"]));
    if Fetched(r) then p["code" := Str(r.value)] else p
  }

  /**
   * `_updateLocalPlugins`: nothing installed gives an empty layer; otherwise the
   * installed plugins that are still offered get their code downloaded again, and
   * the rest are uninstalled.
   */
  function UpdateLocalPlugins(flat: Plugins, local: Option<Plugins>, host: string, fetch: Fetch): (r: Plugins)
    ensures local.None? ==> r == map[]
    ensures r.Keys <= flat.Keys
    ensures local.Some? ==> forall uid :: uid in r <==> uid in local.value && StaysInstalled(flat, uid, local.value[uid])
    ensures local.Some? ==> forall uid :: uid in r ==> forall f :: f != "code" ==> Get(r[uid], f) == Get(local.value[uid], f)
    ensures local.Some? ==> forall uid :: uid in r ==>
      && uid in local.value && "filename" in local.value[uid]
      && var resp := fetch(PluginUrl(host, local.value[uid]["filename"]));
         Get(r[uid], "code") == if Fetched(resp) then Some(Str(resp.value)) else Get(local.value[uid], "code")
  {
    match local
    case None => map[]
    case Some(l) =>
      map uid | uid in l && StaysInstalled(flat, uid, l[uid]) :: Refreshed(l[uid], host, fetch)
  }

  /** After the refresh every installed plugin is in the catalogue, so the merge cannot fail. */
  lemma RefreshedLayersMerge(flat: Plugins, local: Option<Plugins>, user: Plugins, host: string, fetch: Fetch)
    ensures MergeLayers(flat, UpdateLocalPlugins(flat, local, host, fetch), user).Ok?
  {
  }

  /** The version text a descriptor announces. */
  predicate NewerVersion(meta: Record, p: Record) {
    TruthyOpt(Get(meta, "version")) && Get(meta, "version") != Get(p, "version")
  }

  /**
   * One user script of `_updateExternalPlugins`, downloading the code from the URL
   * held in `codeField`: with both URLs set, the update descriptor is fetched and
   * parsed, and a different version replaces the record by the new descriptor with
   * the downloaded code.
   */
  function ScriptUpdate(p: Record, hash: string, fetch: Fetch, codeField: string): (r: Option<Record>)
    ensures r.Some? ==> TruthyOpt(Get(p, "updateURL")) && TruthyOpt(Get(p, "downloadURL"))
    ensures r.Some? ==>
      var resp := fetch(JsStringOpt(Get(p, "updateURL")) + hash);
      var code := fetch(JsStringOpt(Get(p, codeField)) + hash);
      && Fetched(resp) && ParseMeta(resp.value).Some? && NewerVersion(ParseMeta(resp.value).value, p)
      && Fetched(code)
      && r.value == ParseMeta(resp.value).value["code" := Str(code.value)]
  {
    if !(TruthyOpt(Get(p, "updateURL")) && TruthyOpt(Get(p, "downloadURL"))) then None
    else
      var resp := fetch(JsStringOpt(Get(p, "updateURL")) + hash);
      if !Fetched(resp) then None
      else
        match ParseMeta(resp.value)
        case None => None
        case Some(meta) =>
          if !NewerVersion(meta, p) then None
          else
            var code := fetch(JsStringOpt(Get(p, codeField)) + hash);
            if Fetched(code) then Some(meta["code" := Str(code.value)]) else None
  }

  /**
   * The loop of `_updateExternalPlugins` with the code read from `codeField`: the
   * user scripts to save when at least one was updated, `None` when there is nothing
   * to save.
   */
  function UpdateExternalWith(user: Option<Plugins>, hash: string, fetch: Fetch, codeField: string): (r: Option<Plugins>)
    ensures r.Some? <==> user.Some? && exists uid :: uid in user.value && ScriptUpdate(user.value[uid], hash, fetch, codeField).Some?
    ensures r.Some? ==> r.value.Keys == user.value.Keys
    ensures r.Some? ==> forall uid :: uid in r.value ==>
      r.value[uid] == ScriptUpdate(user.value[uid], hash, fetch, codeField).GetOr(user.value[uid])
  {
    match user
    case None => None
    case Some(u) =>
      var updated := map uid | uid in u :: ScriptUpdate(u[uid], hash, fetch, codeField).GetOr(u[uid]);
      if exists uid :: uid in u && ScriptUpdate(u[uid], hash, fetch, codeField).Some? then Some(updated) else None
  }

  /** `_updateExternalPlugins` as written: the "code" is fetched from the update URL again. */
  function UpdateExternalPlugins(user: Option<Plugins>, hash: string, fetch: Fetch): Option<Plugins> {
    UpdateExternalWith(user, hash, fetch, "updateURL")
  }

  /** `_updateExternalPlugins` downloading the code from `downloadURL`. */
  function UpdateExternalPluginsFixed(user: Option<Plugins>, hash: string, fetch: Fetch): Option<Plugins> {
    UpdateExternalWith(user, hash, fetch, "downloadURL")
  }

  /**
   * As written, an updated user script's code is the update descriptor itself:
   * the text served at `updateURL`, normally the header-only `.meta.js`.
   */
  lemma UpdatedCodeIsTheDescriptor(user: Plugins, hash: string, fetch: Fetch, uid: string)
    requires uid in user && ScriptUpdate(user[uid], hash, fetch, "updateURL").Some?
    ensures UpdateExternalPlugins(Some(user), hash, fetch).Some?
    ensures var p := user[uid];
      Get(UpdateExternalPlugins(Some(user), hash, fetch).value[uid], "code")
        == Some(Str(fetch(JsStringOpt(Get(p, "updateURL")) + hash).value))
  {
  }

  /** Downloading from `downloadURL`, an updated user script's code is the script served there. */
  lemma FixedUpdateDownloadsTheScript(user: Plugins, hash: string, fetch: Fetch, uid: string)
    requires uid in user && ScriptUpdate(user[uid], hash, fetch, "downloadURL").Some?
    ensures UpdateExternalPluginsFixed(Some(user), hash, fetch).Some?
    ensures var p := user[uid];
      Get(UpdateExternalPluginsFixed(Some(user), hash, fetch).value[uid], "code")
        == Some(Str(fetch(JsStringOpt(Get(p, "downloadURL")) + hash).value))
    ensures var p := user[uid];
      ParseMeta(fetch(JsStringOpt(Get(p, "updateURL")) + hash).value).Some?
  {
  }
}
