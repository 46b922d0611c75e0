/**
 * Storage. The library talks to a key-value store through `get(keys)` and `set(object)`;
 * `Store` is that store as the library sees it, and `TestStore` is the in-memory
 * store the library's tests plug in, which keeps every value as text.
 */
module Storage {
  import opened Wrappers
  import opened Json

  // ---------------------------------------------------------------------------
  // The store as the library uses it

  type Store = map<string, Value>

  /** A stored value; a key never written reads as null. */
  function Read(store: Store, key: string): (v: Value)
    ensures key !in store ==> v == Null
    ensures key in store ==> v == store[key]
  {
    if key in store then store[key] else Null
  }

  /** `set(object)`: every entry of the object is written, every other key is kept. */
  function Write(store: Store, obj: Record): (r: Store)
    ensures r.Keys == store.Keys + obj.Keys
    ensures forall k :: k in obj ==> Read(r, k) == obj[k]
    ensures forall k :: k !in obj ==> Read(r, k) == Read(store, k)
  {
    store + obj
  }

  /**
   * `get(keys)` of the in-memory test store: every requested key, with null for a
   * key never written.
   */
  function ReadKeys(store: Store, keys: seq<string>): (r: Record)
    ensures r.Keys == set i | 0 <= i < |keys| :: keys[i]
    ensures forall k :: k in r ==> r[k] == Read(store, k)
  {
    map k | k in (set i | 0 <= i < |keys| :: keys[i]) :: Read(store, k)
  }

  /**
   * `get(keys)` of a browser extension's storage area: only the requested keys that
   * hold a value, so a key never written reads as `undefined`.
   */
  function BrowserGet(store: Store, keys: seq<string>): (r: Record)
    ensures forall k :: k in r <==> k in store && k in keys
    ensures forall k :: k in r ==> r[k] == store[k]
  {
    map k | k in store && k in keys :: store[k]
  }

  /**
   * The two answers differ only on keys never written: the test store answers null
   * where the browser leaves the key out.
   */
  lemma GetsDifferOnMissingKeys(store: Store, keys: seq<string>, k: string)
    requires k in keys
    ensures k in store ==> Get(BrowserGet(store, keys), k) == Get(ReadKeys(store, keys), k) == Some(store[k])
    ensures k !in store ==> Get(BrowserGet(store, keys), k).None? && Get(ReadKeys(store, keys), k) == Some(Null)
  {
    var i :| 0 <= i < |keys| && keys[i] == k;
  }

  /** Writes of disjoint keys can be done in either order. */
  lemma WritesCommute(store: Store, a: Record, b: Record)
    requires a.Keys !! b.Keys
    ensures Write(Write(store, a), b) == Write(Write(store, b), a)
  {
  }

  /** A write of a single key commutes with a write that avoids that key. */
  lemma SingleKeyCommutes(store: Store, a: Record, b: Record, k: string)
    requires a.Keys == {k} && k !in b
    ensures Write(Write(store, a), b) == Write(Write(store, b), a)
  {
    WritesCommute(store, a, b);
  }

  /** Writing twice is writing the union, later entries winning. */
  lemma WriteTwice(store: Store, a: Record, b: Record)
    ensures Write(Write(store, a), b) == Write(store, a + b)
  {
  }

  /** Writing the same object again changes nothing. */
  lemma WriteAgain(store: Store, a: Record)
    ensures Write(Write(store, a), a) == Write(store, a)
  {
    WriteTwice(store, a, a);
    assert a + a == a;
  }

  // ---------------------------------------------------------------------------
  // The test store

  /**
   * A cell of the test store: a string is kept as given, anything else as its
   * JSON text, which reads back as the value itself.
   */
  datatype Cell = Raw(text: string) | Encoded(value: Value)

  type TestStore = map<string, Cell>

  /** `JSON.parse`, `None` when it throws. */
  type Parser = string -> Option<Value>

  /** `_get_one` on a present cell: JSON text is parsed, text that is not JSON is returned as it is. */
  function ReadCell(c: Cell, parse: Parser): Value {
    match c
    case Raw(t) => parse(t).GetOr(Str(t))
    case Encoded(v) => v
  }

  /** `_get_one`. */
  function GetOne(store: TestStore, key: string, parse: Parser): (v: Value)
    ensures key !in store ==> v == Null
    ensures key in store && store[key].Encoded? ==> v == store[key].value
    ensures key in store && store[key].Raw? ==>
      v == (match parse(store[key].text) case Some(x) => x case None => Str(store[key].text))
  {
    if key in store then ReadCell(store[key], parse) else Null
  }

  /** `_set_one`: strings are kept as text, other values are serialised. */
  function CellOf(v: Value): (c: Cell)
    ensures c.Raw? <==> v.Str?
  {
    if v.Str? then Raw(v.s) else Encoded(v)
  }

  function SetOne(store: TestStore, key: string, v: Value): (r: TestStore)
    ensures r.Keys == store.Keys + {key}
    ensures r[key] == CellOf(v)
    ensures forall k :: k in store && k != key ==> r[k] == store[k]
  {
    store[key := CellOf(v)]
  }

  /** The argument of `get`: null, one key, or a list of keys. */
  datatype Keys = AllKeys | OneKey(key: string) | KeyList(keys: seq<string>)

  /** `_one_to_array`: a single key becomes a one-element list; anything else is left alone. */
  function OneToArray(keys: Keys): (r: Keys)
    ensures keys.OneKey? ==> r == KeyList([keys.key])
    ensures !keys.OneKey? ==> r == keys
  {
    match keys
    case OneKey(k) => KeyList([k])
    case _ => keys
  }

  /** `get(keys)`: null reads every stored key; otherwise each requested key, null when missing. */
  function TestGet(store: TestStore, keys: Keys, parse: Parser): (r: Record)
    ensures keys.AllKeys? ==> r.Keys == store.Keys
    ensures keys.OneKey? ==> r.Keys == {keys.key}
    ensures keys.KeyList? ==> r.Keys == set i | 0 <= i < |keys.keys| :: keys.keys[i]
    ensures forall k :: k in r ==> r[k] == GetOne(store, k, parse)
  {
    match OneToArray(keys)
    case AllKeys => map k | k in store :: GetOne(store, k, parse)
    case KeyList(ks) =>
      assert keys.OneKey? ==> (set i | 0 <= i < |ks| :: ks[i]) == {keys.key} by {
        if keys.OneKey? {
          assert ks[0] == keys.key;
        }
      }
      map k | k in (set i | 0 <= i < |ks| :: ks[i]) :: GetOne(store, k, parse)
    case OneKey(_) => map[]
  }

  /** `set(object)`: each entry goes through `_set_one`; other keys are kept. */
  function TestSet(store: TestStore, obj: Record): (r: TestStore)
    ensures r.Keys == store.Keys + obj.Keys
    ensures forall k :: k in obj ==> r[k] == CellOf(obj[k])
    ensures forall k :: k in store && k !in obj ==> r[k] == store[k]
  {
    map k | k in store.Keys + obj.Keys :: if k in obj then CellOf(obj[k]) else store[k]
  }

  /** `resetStorage`: nothing is left, so every key reads as null. */
  function Reset(store: TestStore): (r: TestStore)
    ensures forall k, parse: Parser :: GetOne(r, k, parse) == Null
  {
    map[]
  }

  /** Text that `JSON.parse` rejects or that parses to itself survives a round trip. */
  predicate StringSurvives(t: string, parse: Parser) {
    parse(t).None? || parse(t) == Some(Str(t))
  }

  /**
   * A value read back after `set` is the value written, except a string that
   * `JSON.parse` accepts as some other value: '42' reads back as the number 42.
   */
  lemma SetThenGet(store: TestStore, obj: Record, key: string, parse: Parser)
    requires key in obj
    ensures obj[key].Str? ==> (GetOne(TestSet(store, obj), key, parse) == obj[key] <==> StringSurvives(obj[key].s, parse))
    ensures !obj[key].Str? ==> GetOne(TestSet(store, obj), key, parse) == obj[key]
  {
  }

  /** `set` leaves the keys it is not given as they were. */
  lemma SetKeepsOthers(store: TestStore, obj: Record, key: string, parse: Parser)
    requires key !in obj
    ensures GetOne(TestSet(store, obj), key, parse) == GetOne(store, key, parse)
  {
  }

  /** What the test store holds, seen as values. */
  function View(store: TestStore, parse: Parser): (r: Store)
    ensures forall k :: Read(r, k) == GetOne(store, k, parse)
  {
    map k | k in store :: ReadCell(store[k], parse)
  }

  predicate StringsSurvive(obj: Record, parse: Parser) {
    forall k :: k in obj && obj[k].Str? ==> StringSurvives(obj[k].s, parse)
  }

  /**
   * As long as every string written survives `JSON.parse`, the test store answers
   * exactly as the store the library assumes.
   */
  lemma TestStoreAgrees(store: TestStore, obj: Record, parse: Parser)
    requires StringsSurvive(obj, parse)
    ensures forall k :: GetOne(TestSet(store, obj), k, parse) == Read(Write(View(store, parse), obj), k)
  {
    forall k
      ensures GetOne(TestSet(store, obj), k, parse) == Read(Write(View(store, parse), obj), k)
    {
      if k in obj {
        SetThenGet(store, obj, k, parse);
      } else {
        SetKeepsOthers(store, obj, k, parse);
      }
    }
  }

  /** Reading a list of keys from the test store is `ReadKeys` on what it holds. */
  lemma TestGetIsReadKeys(store: TestStore, keys: seq<string>, parse: Parser)
    ensures TestGet(store, KeyList(keys), parse) == ReadKeys(View(store, parse), keys)
  {
  }
}
