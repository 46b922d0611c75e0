/**
 * Storage migrations (src/migrations.js): `migrate` reads a handful of keys, runs
 * the migrations the stored `storage_version` has not seen yet, and writes the keys
 * back with the new version. There is one migration: user scripts saved without a
 * category get the category 'Misc'.
 */
module Migrations {
  import opened Wrappers
  import opened Text
  import opened Json
  import opened Storage

  /** The keys `migrate` reads, and writes back. */
  const MigrationKeys: seq<string> :=
    ["release_plugins_flat", "test_plugins_flat", "local_plugins_flat", "lastversion", "storage_version"]

  /** How many migrations there are: the version a migrated store is at. */
  const MigrationCount: nat := 1

  // ---------------------------------------------------------------------------
  // `migration_0001`

  /** A plugin record saved as a user script (`user === true`) with no category. */
  predicate NeedsCategory(p: Record) {
    Get(p, "user") == Some(Bool(true)) && Get(p, "category").None?
  }

  /** One entry of a layer: a record that needs a category gets 'Misc'; anything else stays. */
  function FixPlugin(v: Value): (r: Value)
    ensures v.Obj? && NeedsCategory(v.fields) ==>
      && r.Obj? && r.fields.Keys == v.fields.Keys + {"category"}
      && Get(r.fields, "category") == Some(Str("Misc"))
      && forall k :: k in v.fields && k != "category" ==> r.fields[k] == v.fields[k]
    ensures !(v.Obj? && NeedsCategory(v.fields)) ==> r == v
  {
    if v.Obj? && NeedsCategory(v.fields) then Obj(v.fields["category" := Str("Misc")]) else v
  }

  /** A layer holding a null entry: reading `user` of it is a TypeError. */
  predicate HasNullEntry(v: Value) {
    || (v.Obj? && exists k :: k in v.fields && v.fields[k].Null?)
    || (v.Arr? && exists i :: 0 <= i < |v.items| && v.items[i].Null?)
  }

  /**
   * One stored value of the migration's input: the entries of an object or array
   * are fixed one by one; null is skipped, and so is any other value, whose
   * entries (characters of a string, none for a number) are never records.
   */
  function FixLayer(v: Value): (r: Result<Value, string>)
    ensures r.Err? <==> HasNullEntry(v)
    ensures r.Ok? && v.Obj? ==>
      && r.value.Obj? && r.value.fields.Keys == v.fields.Keys
      && forall k :: k in v.fields ==> r.value.fields[k] == FixPlugin(v.fields[k])
    ensures r.Ok? && v.Arr? ==>
      && r.value.Arr? && |r.value.items| == |v.items|
      && forall i :: 0 <= i < |v.items| ==> r.value.items[i] == FixPlugin(v.items[i])
    ensures r.Ok? && !v.Obj? && !v.Arr? ==> r.value == v
  {
    match v
    case Obj(fields) =>
      if exists k :: k in fields && fields[k].Null? then Err("TypeError")
      else Ok(Obj(map k | k in fields :: FixPlugin(fields[k])))
    case Arr(items) =>
      if exists i :: 0 <= i < |items| && items[i].Null? then Err("TypeError")
      else Ok(Arr(seq(|items|, i requires 0 <= i < |items| => FixPlugin(items[i]))))
    case _ => Ok(v)
  }

  /** Some value of the input is a layer with a null entry. */
  predicate Breaks(local: Record) {
    exists k :: k in local && HasNullEntry(local[k])
  }

  /** `migration_0001(local)`: every stored value fixed, or the TypeError of the first null entry. */
  function Migration0001(local: Record): (r: Result<Record, string>)
    ensures r.Err? <==> Breaks(local)
    ensures r.Ok? ==> r.value.Keys == local.Keys
  {
    if exists k :: k in local && FixLayer(local[k]).Err? then Err("TypeError")
    else Ok(map k | k in local :: FixLayer(local[k]).value)
  }

  /**
   * The migration gives 'Misc' to exactly the records saved as user scripts
   * without a category, and changes nothing else.
   */
  lemma Migration0001Categories(local: Record, layer: string, uid: string)
    requires Migration0001(local).Ok? && layer in local && local[layer].Obj? && uid in local[layer].fields
    ensures var out := Migration0001(local).value;
      var before := local[layer].fields[uid];
      && out[layer].Obj? && uid in out[layer].fields
      && (if before.Obj? && NeedsCategory(before.fields)
          then out[layer].fields[uid] == Obj(before.fields["category" := Str("Misc")])
          else out[layer].fields[uid] == before)
  {
    assert FixLayer(local[layer]).Ok?;
  }

  /** Values that are not objects or arrays come out of the migration as they went in. */
  lemma Migration0001KeepsScalars(local: Record, k: string)
    requires Migration0001(local).Ok? && k in local && !local[k].Obj? && !local[k].Arr?
    ensures Migration0001(local).value[k] == local[k]
  {
    assert FixLayer(local[k]).Ok?;
  }

  /** A fixed entry needs no fixing: running the migration twice is running it once. */
  lemma Migration0001Idempotent(local: Record)
    requires Migration0001(local).Ok?
    ensures Migration0001(Migration0001(local).value) == Migration0001(local)
  {
    var once := Migration0001(local).value;
    forall k | k in once
      ensures FixLayer(once[k]) == Ok(once[k])
    {
      assert FixLayer(local[k]).Ok?;
      FixLayerTwice(local[k]);
    }
    assert !Breaks(once);
    assert Migration0001(once).value == once;
  }

  /** A layer the migration accepted comes out unchanged from a second pass. */
  lemma FixLayerTwice(v: Value)
    requires FixLayer(v).Ok?
    ensures FixLayer(FixLayer(v).value) == FixLayer(v)
  {
    var w := FixLayer(v).value;
    match v
    case Obj(fields) =>
      forall k | k in w.fields
        ensures FixPlugin(w.fields[k]) == w.fields[k] && !w.fields[k].Null?
      {
        FixPluginTwice(fields[k]);
      }
      assert !HasNullEntry(w);
      assert FixLayer(w).value.fields == w.fields;
    case Arr(items) =>
      forall i | 0 <= i < |w.items|
        ensures FixPlugin(w.items[i]) == w.items[i] && !w.items[i].Null?
      {
        FixPluginTwice(items[i]);
      }
      assert !HasNullEntry(w);
      assert FixLayer(w).value.items == w.items;
    case _ =>
  }

  /** A fixed entry needs no fixing, and a non-null one stays non-null. */
  lemma FixPluginTwice(v: Value)
    ensures FixPlugin(FixPlugin(v)) == FixPlugin(v)
    ensures !v.Null? ==> !FixPlugin(v).Null?
  {
  }

  // ---------------------------------------------------------------------------
  // `migrate`

  /** A store from before versioning (`lastversion` set, `storage_version` null) counts as version 0. */
  function StartingVersion(local: Record): (r: Record)
    ensures Get(local, "storage_version") == Some(Null) && Get(local, "lastversion") != Some(Null) ==> r == local["storage_version" := Num(0)]
    ensures !(Get(local, "storage_version") == Some(Null) && Get(local, "lastversion") != Some(Null)) ==> r == local
  {
    if Get(local, "storage_version") == Some(Null) && Get(local, "lastversion") != Some(Null) then local["storage_version" := Num(0)]
    else local
  }

  /** `parseInt(local['storage_version']) < 1`: the first migration is still to run. */
  predicate Pending(local: Record) {
    var v := ParseInt(Get(local, "storage_version"));
    v.Some? && v.value < 1
  }

  /**
   * `migrate(storage)` given what `storage.get` answered for the five keys: the
   * object written back by `storage.set` and whether a migration ran, or the error
   * the migration raised (nothing is written then).
   */
  function Migrate(local: Record): (r: Result<(Record, bool), string>)
    ensures r.Err? <==> Pending(StartingVersion(local)) && Breaks(StartingVersion(local))
    ensures r.Ok? ==> r.value.0.Keys == local.Keys + {"storage_version"}
    ensures r.Ok? ==> r.value.0["storage_version"] == Num(MigrationCount)
    ensures r.Ok? ==> (r.value.1 <==> Pending(StartingVersion(local)))
  {
    var start := StartingVersion(local);
    assert start.Keys <= local.Keys + {"storage_version"};
    if Pending(start) then
      match Migration0001(start)
      case Err(e) => Err(e)
      case Ok(fixed) => Ok((Stamped(fixed), true))
    else Ok((Stamped(start), false))
  }

  /** The store marked with the version of the last migration. */
  function Stamped(local: Record): (r: Record)
    ensures r.Keys == local.Keys + {"storage_version"}
    ensures r["storage_version"] == Num(MigrationCount)
    ensures forall k :: k in local && k != "storage_version" ==> r[k] == local[k]
  {
    local["storage_version" := Num(MigrationCount)]
  }

  /** `parseInt(String(n))` reads a natural number back. */
  lemma ParseIntOfNat(n: nat)
    ensures ParseInt(Some(Num(n))) == Some(n)
  {
    var s := NatToString(n);
    DigitsRoundTrip(n);
    assert JsStringOpt(Some(Num(n))) == s;
    assert !IsSpace(s[0]);
    assert SkipSpace(s, 0) == 0;
    assert SpanFrom(s, 0, IsDigit) == |s| by {
      SpanOfDigits(s, 0);
    }
    assert s[0..|s|] == s;
  }

  /** Over a run of digits reaching the end of the text, the span of digits is that run. */
  lemma {:induction false} SpanOfDigits(s: string, from: nat)
    requires from <= |s| && forall i :: from <= i < |s| ==> IsDigit(s[i])
    ensures SpanFrom(s, from, IsDigit) == |s| - from
    decreases |s| - from
  {
    if from < |s| {
      SpanOfDigits(s, from + 1);
    }
  }

  /** A store saved before versioning existed is migrated (on a store that answers null for a missing key). */
  lemma MigrationRunsAfterUpgrade(local: Record)
    requires Get(local, "storage_version") == Some(Null) && Get(local, "lastversion") != Some(Null)
    requires !Breaks(local["storage_version" := Num(0)])
    ensures Migrate(local).Ok? && Migrate(local).value.1
  {
    ParseIntOfNat(0);
  }

  /** A fresh store (neither key set) is not migrated, only stamped with the current version. */
  lemma FreshStoreSkipsMigration(local: Record)
    requires Get(local, "storage_version") == Some(Null) && Get(local, "lastversion") == Some(Null)
    ensures Migrate(local) == Ok((local["storage_version" := Num(MigrationCount)], false))
  {
  }

  /** Migrating a migrated store changes nothing and runs nothing. */
  lemma MigrateIdempotent(local: Record)
    requires Migrate(local).Ok?
    ensures Migrate(Migrate(local).value.0) == Ok((Migrate(local).value.0, false))
  {
    var out := Migrate(local).value.0;
    ParseIntOfNat(MigrationCount);
    assert StartingVersion(out) == out;
    assert out["storage_version" := Num(MigrationCount)] == out;
  }

  /**
   * On the library's test store, a store saved before versioning reads its missing
   * `storage_version` as null and is migrated.
   */
  lemma UpgradeOnTestStore(store: Store)
    requires "storage_version" !in store && "lastversion" in store && !store["lastversion"].Null?
    requires !Breaks(ReadKeys(store, MigrationKeys)["storage_version" := Num(0)])
    ensures Migrate(ReadKeys(store, MigrationKeys)).Ok? && Migrate(ReadKeys(store, MigrationKeys)).value.1
  {
    GetsDifferOnMissingKeys(store, MigrationKeys, "storage_version");
    GetsDifferOnMissingKeys(store, MigrationKeys, "lastversion");
    MigrationRunsAfterUpgrade(ReadKeys(store, MigrationKeys));
  }

  /**
   * A browser store leaves the missing `storage_version` out of its answer, so the
   * same store is not migrated there: `parseInt(undefined)` is NaN, and the store
   * is stamped with the current version all the same.
   */
  lemma UpgradeSkippedOnBrowserStore(store: Store)
    requires "storage_version" !in store && "lastversion" in store && !store["lastversion"].Null?
    ensures Migrate(BrowserGet(store, MigrationKeys)).Ok? && !Migrate(BrowserGet(store, MigrationKeys)).value.1
  {
    var local := BrowserGet(store, MigrationKeys);
    GetsDifferOnMissingKeys(store, MigrationKeys, "storage_version");
    assert JsStringOpt(Get(local, "storage_version")) == "undefined";
    assert SkipSpace("undefined", 0) == 0 by {
      assert !IsSpace("undefined"[0]);
    }
    assert SpanFrom("undefined", 0, IsDigit) == 0 by {
      assert !IsDigit("undefined"[0]);
    }
    assert !Pending(StartingVersion(local));
  }
}
