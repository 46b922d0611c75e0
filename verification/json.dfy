/** The JavaScript values the library keeps in storage and in plugin records, as JSON. */
module Json {
  import opened Wrappers
  import opened Text

  /** A JSON value; numbers are integers (timestamps, intervals, versions). */
  datatype Value =
    | Null
    | Bool(b: bool)
    | Num(n: int)
    | Str(s: string)
    | Arr(items: seq<Value>)
    | Obj(fields: map<string, Value>)

  /** A plain JavaScript object: a plugin record, a category entry, a meta descriptor. */
  type Record = map<string, Value>

  /** `record[key]`, with `None` standing for `undefined`. */
  function Get(r: Record, key: string): (v: Option<Value>)
    ensures v.Some? <==> key in r
  {
    if key in r then Some(r[key]) else None
  }

  /** `record[key] = v`; assigning `undefined` leaves no key once the record is stored as JSON. */
  function SetOpt(r: Record, key: string, v: Option<Value>): (r': Record)
    ensures Get(r', key) == v
    ensures forall k :: k != key ==> Get(r', k) == Get(r, k)
  {
    match v
    case Some(x) => r[key := x]
    case None => r - {key}
  }

  /** JavaScript truthiness of a present value. */
  predicate Truthy(v: Value) {
    match v
    case Null => false
    case Bool(b) => b
    case Num(n) => n != 0
    case Str(s) => s != ""
    case Arr(_) => true
    case Obj(_) => true
  }

  /** Truthiness of a possibly undefined value. */
  predicate TruthyOpt(v: Option<Value>) {
    v.Some? && Truthy(v.value)
  }

  /** Neither `null` nor `undefined`. */
  predicate IsSet(v: Option<Value>) {
    v.Some? && !v.value.Null?
  }

  /** `String(v)` (and template-literal interpolation) of a present value. */
  function JsString(v: Value): string {
    match v
    case Null => "null"
    case Bool(b) => if b then "true" else "false"
    case Num(n) => IntToString(n)
    case Str(s) => s
    case Arr(items) =>
      Join(seq(|items|, i requires 0 <= i < |items| => if items[i].Null? then "" else JsString(items[i])), ",")
    case Obj(_) => "[object Object]"
  }

  /** `String(v)` of a possibly undefined value. */
  function JsStringOpt(v: Option<Value>): string {
    match v
    case None => "undefined"
    case Some(x) => JsString(x)
  }

  /** Index just past the leading run of `\s` characters of `s[from..]`. */
  function SkipSpace(s: string, from: nat): (k: nat)
    requires from <= |s|
    ensures from <= k <= |s|
  {
    from + SpanFrom(s, from, IsSpace)
  }

  /** Index of the end of the text once trailing `\s` characters are dropped. */
  function TrimEnd(s: string, upTo: nat): (k: nat)
    requires upTo <= |s|
    ensures k <= upTo
  {
    if upTo > 0 && IsSpace(s[upTo - 1]) then TrimEnd(s, upTo - 1) else upTo
  }

  predicate AllDigits(s: string) {
    forall i :: 0 <= i < |s| ==> IsDigit(s[i])
  }

  /** An optionally signed run of decimal digits, read as an integer. */
  function SignedDigits(t: string): Option<int> {
    if |t| > 0 && (t[0] == '-' || t[0] == '+') then
      var d := t[1..];
      if |d| > 0 && AllDigits(d) then Some(if t[0] == '-' then 0 - DigitsValue(d) as int else DigitsValue(d) as int) else None
    else if |t| > 0 && AllDigits(t) then Some(DigitsValue(t))
    else None
  }

  /** `Number(s)` for decimal integer text; `None` is NaN. */
  function StringToNumber(s: string): Option<int> {
    var a := SkipSpace(s, 0);
    var t := s[a..];
    var t' := t[..TrimEnd(t, |t|)];
    if t' == "" then Some(0) else SignedDigits(t')
  }

  /** `Number(v)`, the coercion `*` and `-` apply; `None` is NaN. */
  function ToNumber(v: Option<Value>): Option<int> {
    match v
    case None => None
    case Some(Null) => Some(0)
    case Some(Bool(b)) => Some(if b then 1 else 0)
    case Some(Num(n)) => Some(n)
    case Some(Str(s)) => StringToNumber(s)
    case Some(Arr(_)) => StringToNumber(JsString(v.value))
    case Some(Obj(_)) => None
  }

  /** `parseInt(String(v))` in base 10: the longest signed digit prefix after leading spaces. */
  function ParseInt(v: Option<Value>): Option<int> {
    var s := JsStringOpt(v);
    var a := SkipSpace(s, 0);
    var signed := a < |s| && (s[a] == '-' || s[a] == '+');
    var b := if signed then a + 1 else a;
    var n := SpanFrom(s, b, IsDigit);
    if n == 0 then None
    else
      var d: int := DigitsValue(s[b..b + n]);
      Some(if signed && s[a] == '-' then -d else d)
  }

  /** `x !== y` when `x` is a primitive read from the network (a string or `null`). */
  predicate StrictEq(x: Value, y: Value) {
    !x.Arr? && !x.Obj? && x == y
  }

  /** A string's digits read back: the decimal printer and `parseInt` agree on integers. */
  lemma {:induction false} DigitsRoundTrip(n: nat)
    ensures AllDigits(NatToString(n))
    ensures DigitsValue(NatToString(n)) == n
  {
    if n >= 10 {
      DigitsRoundTrip(n / 10);
      var s := NatToString(n);
      assert s[..|s| - 1] == NatToString(n / 10);
    }
  }
}
