/**
 * Per-channel storage keys. Both the worker (`_save`) and the manager (`#save`) file
 * a fixed set of keys under the current channel ("release_plugins_flat") and every
 * other key as it is.
 */
module Channels {
  import opened Wrappers
  import opened Json
  import opened Storage

  /** The keys the worker files under the channel. */
  const WorkerFields: set<string> :=
    {"iitc_version", "last_modified", "iitc_core", "categories", "plugins_flat", "plugins_local", "plugins_user"}

  /** The keys the manager files under the channel: the code of IITC is `iitc_code` there. */
  const ManagerFields: set<string> :=
    {"iitc_version", "last_modified", "iitc_code", "categories", "plugins_flat", "plugins_local", "plugins_user"}

  /** Every key either component files under the channel. */
  const AllFields: set<string> :=
    {"iitc_version", "last_modified", "iitc_core", "iitc_code", "categories", "plugins_flat", "plugins_local", "plugins_user"}

  /** The keys saved without a channel prefix by either component. */
  const GlobalKeys: set<string> :=
    {"channel", "network_host", "is_daemon", "last_check_update", "last_check_external_update",
     "external_update_check_interval", "storage_version", "lastversion"}

  /** The storage key of a channel's copy of `field`. */
  function ChannelKey(channel: string, field: string): string {
    channel + "_" + field
  }

  /** Where `key` of an options object is saved. */
  function StorageKey(fields: set<string>, channel: string, key: string): string {
    if key in fields then ChannelKey(channel, key) else key
  }

  /** No two option keys are saved under the same storage key. */
  predicate SaveKeysDistinct(fields: set<string>, channel: string, options: Record) {
    forall a, b :: a in options && b in options && StorageKey(fields, channel, a) == StorageKey(fields, channel, b) ==> a == b
  }

  /**
   * `_save(options)` / `#save(options)`: the object handed to `storage.set`, each
   * option under its storage key.
   */
  function Save(fields: set<string>, channel: string, options: Record): (data: Record)
    requires SaveKeysDistinct(fields, channel, options)
    ensures forall k :: k in data <==> exists o :: o in options && StorageKey(fields, channel, o) == k
    ensures forall o :: o in options ==> StorageKey(fields, channel, o) in data && data[StorageKey(fields, channel, o)] == options[o]
  {
    map o | o in options :: StorageKey(fields, channel, o) := options[o]
  }

  /** Saving a single option. */
  lemma SaveOne(fields: set<string>, channel: string, key: string, v: Value)
    ensures SaveKeysDistinct(fields, channel, map[key := v])
    ensures Save(fields, channel, map[key := v]) == map[StorageKey(fields, channel, key) := v]
  {
    var data := Save(fields, channel, map[key := v]);
    assert StorageKey(fields, channel, key) in data;
  }

  /** `a` ends with an underscore followed by `b`. */
  predicate UnderscoreSuffix(a: string, b: string) {
    |a| > |b| && a[|a| - |b| - 1] == '_' && a[|a| - |b|..] == b
  }

  /** No field name ends with "_" and another field name. */
  lemma NoFieldEndsInAnother()
    ensures forall a, b :: a in WorkerFields + ManagerFields && b in WorkerFields + ManagerFields ==> !UnderscoreSuffix(a, b)
  {
    forall a, b | a in WorkerFields + ManagerFields && b in WorkerFields + ManagerFields
      ensures !UnderscoreSuffix(a, b)
    {
      if a in {"iitc_version", "last_modified", "iitc_core", "iitc_code"} {
        NoFieldEndsInAnother1(a, b);
      } else {
        NoFieldEndsInAnother2(a, b);
      }
    }
  }

  lemma NoFieldEndsInAnother1(a: string, b: string)
    requires a in {"iitc_version", "last_modified", "iitc_core", "iitc_code"} && b in AllFields
    ensures !UnderscoreSuffix(a, b)
  {
  }

  lemma NoFieldEndsInAnother2(a: string, b: string)
    requires a in {"categories", "plugins_flat", "plugins_local", "plugins_user"} && b in AllFields
    ensures !UnderscoreSuffix(a, b)
  {
  }

  /** No key saved without a prefix ends with "_" and a field name. */
  lemma NoGlobalKeyEndsInAField(g: string, b: string)
    requires g in GlobalKeys && b in WorkerFields + ManagerFields
    ensures !UnderscoreSuffix(g, b)
  {
    assert b in AllFields;
    if g == "channel" || g == "network_host" {
      GlobalKeysEndInNoField1();
    } else if g == "is_daemon" || g == "last_check_update" {
      GlobalKeysEndInNoField2();
    } else if g == "last_check_external_update" || g == "external_update_check_interval" {
      GlobalKeysEndInNoField3();
    } else {
      GlobalKeysEndInNoField4();
    }
  }

  lemma GlobalKeysEndInNoField1()
    ensures forall b :: b in AllFields ==> !UnderscoreSuffix("channel", b)
    ensures forall b :: b in AllFields ==> !UnderscoreSuffix("network_host", b)
  {
  }

  lemma GlobalKeysEndInNoField2()
    ensures forall b :: b in AllFields ==> !UnderscoreSuffix("is_daemon", b)
    ensures forall b :: b in AllFields ==> !UnderscoreSuffix("last_check_update", b)
  {
  }

  lemma GlobalKeysEndInNoField3()
    ensures forall b :: b in AllFields ==> !UnderscoreSuffix("last_check_external_update", b)
    ensures forall b :: b in AllFields ==> !UnderscoreSuffix("external_update_check_interval", b)
  {
  }

  lemma GlobalKeysEndInNoField4()
    ensures forall b :: b in AllFields ==> !UnderscoreSuffix("storage_version", b)
    ensures forall b :: b in AllFields ==> !UnderscoreSuffix("lastversion", b)
  {
  }

  /** Two channel keys are equal only when the fields are equal or one ends in "_" and the other. */
  lemma {:induction false} ChannelKeySplit(c1: string, f1: string, c2: string, f2: string)
    requires ChannelKey(c1, f1) == ChannelKey(c2, f2)
    ensures (c1 == c2 && f1 == f2) || UnderscoreSuffix(f1, f2) || UnderscoreSuffix(f2, f1)
  {
    var s := ChannelKey(c1, f1);
    assert s == c1 + "_" + f1 && s == c2 + "_" + f2;
    if |c1| == |c2| {
      assert c1 == s[..|c1|] == c2;
      assert f1 == s[|c1| + 1..] == f2;
    } else if |c1| < |c2| {
      assert f1 == s[|c1| + 1..];
      assert f2 == s[|c2| + 1..];
      assert f1[|f1| - |f2|..] == f2;
      assert f1[|f1| - |f2| - 1] == s[|c2|] == '_';
    } else {
      assert f1 == s[|c1| + 1..];
      assert f2 == s[|c2| + 1..];
      assert f2[|f2| - |f1|..] == f1;
      assert f2[|f2| - |f1| - 1] == s[|c1|] == '_';
    }
  }

  /** Different channels, or different fields, never share a storage key: channels keep separate data. */
  lemma ChannelKeyInjective(c1: string, f1: string, c2: string, f2: string)
    requires f1 in WorkerFields + ManagerFields && f2 in WorkerFields + ManagerFields
    ensures ChannelKey(c1, f1) == ChannelKey(c2, f2) <==> c1 == c2 && f1 == f2
  {
    if ChannelKey(c1, f1) == ChannelKey(c2, f2) {
      ChannelKeySplit(c1, f1, c2, f2);
      NoFieldEndsInAnother();
    }
  }

  /** A channel key is never one of the keys saved without a prefix, whatever the channel is called. */
  lemma ChannelKeyNotGlobal(c: string, f: string, g: string)
    requires f in WorkerFields + ManagerFields && g in GlobalKeys
    ensures ChannelKey(c, f) != g
  {
    if ChannelKey(c, f) == g {
      var s := ChannelKey(c, f);
      assert f == s[|c| + 1..];
      assert g[|g| - |f|..] == f;
      assert g[|g| - |f| - 1] == s[|c|] == '_';
      NoGlobalKeyEndsInAField(g, f);
    }
  }

  /**
   * Saved options read back under their storage keys, and a store key no option is
   * saved under keeps its value.
   */
  lemma SaveThenRead(fields: set<string>, store: Store, channel: string, options: Record)
    requires SaveKeysDistinct(fields, channel, options)
    ensures forall o :: o in options ==> Read(Write(store, Save(fields, channel, options)), StorageKey(fields, channel, o)) == options[o]
    ensures forall k :: (forall o :: o in options ==> StorageKey(fields, channel, o) != k) ==>
      Read(Write(store, Save(fields, channel, options)), k) == Read(store, k)
  {
  }

  /** Saving one channel's fields leaves every other channel's fields as they were. */
  lemma SaveLeavesOtherChannels(store: Store, channel: string, options: Record, other: string, f: string)
    requires options.Keys <= WorkerFields && SaveKeysDistinct(WorkerFields, channel, options)
    requires other != channel && f in WorkerFields
    ensures Read(Write(store, Save(WorkerFields, channel, options)), ChannelKey(other, f)) == Read(store, ChannelKey(other, f))
  {
    forall o | o in options
      ensures StorageKey(WorkerFields, channel, o) != ChannelKey(other, f)
    {
      ChannelKeyInjective(channel, o, other, f);
    }
    SaveThenRead(WorkerFields, store, channel, options);
  }

  /** Options that are all fields, or all global keys, can always be saved together. */
  lemma FieldsSaveDistinct(fields: set<string>, channel: string, options: Record)
    requires fields == WorkerFields || fields == ManagerFields
    requires options.Keys <= fields || options.Keys !! fields
    ensures SaveKeysDistinct(fields, channel, options)
  {
    forall a, b | a in options && b in options && StorageKey(fields, channel, a) == StorageKey(fields, channel, b)
      ensures a == b
    {
      if a in fields {
        ChannelKeyInjective(channel, a, channel, b);
      }
    }
  }
}
