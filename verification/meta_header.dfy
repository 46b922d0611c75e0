/** The `==UserScript==` header parser of the helper module. */
module MetaHeader {
  import opened Wrappers
  import opened Text
  import opened Json

  const Opening: string := "==UserScript=="
  const Closing: string := "==/UserScript=="

  /** The keys whose every occurrence is collected into a list, in source order. */
  const ArrayKeys: set<string> := {"include", "exclude", "match", "excludeMatch", "require", "grant"}

  // ---------------------------------------------------------------------------
  // Locating the header block

  /** `//`, any spaces, then `==/UserScript==` start at index `j`. */
  predicate ClosingAt(s: string, j: int) {
    0 <= j && j + 2 <= |s| && OccursAt(s, "//", j) && OccursAt(s, Closing, SkipSpace(s, j + 2))
  }

  /** The text holds an opening marker with a closing line somewhere after it. */
  predicate HasBlock(code: string) {
    exists i, j :: 0 <= i && i + |Opening| <= j <= |code| && OccursAt(code, Opening, i) && ClosingAt(code, j)
  }

  /** The last closing line starting in `[lo, hi]`, or -1. */
  function LastClosing(s: string, lo: nat, hi: int): (r: int)
    ensures r == -1 || (lo <= r <= hi && ClosingAt(s, r))
    ensures r == -1 ==> forall j :: lo <= j <= hi ==> !ClosingAt(s, j)
    ensures r != -1 ==> forall j :: r < j <= hi ==> !ClosingAt(s, j)
  {
    var closing := j => ClosingAt(s, j);
    assert forall j :: closing(j) == ClosingAt(s, j);
    LastWhere(closing, lo, hi)
  }

  /**
   * The text the header regular expression captures: from the first opening marker
   * (and the spaces after it) up to the start of the LAST closing line, the capture
   * group being greedy. `None` when there is no block.
   */
  function HeaderText(code: string): (h: Option<string>)
    ensures h.None? <==> !HasBlock(code)
  {
    var i := FindFrom(code, Opening, 0);
    if i == -1 then None
    else
      var a := SkipSpace(code, i + |Opening|);
      var j := LastClosing(code, i + |Opening|, |code|);
      if j == -1 then
        assert !HasBlock(code) by {
          forall i', j' | OccursAt(code, Opening, i') && i' + |Opening| <= j'
            ensures !ClosingAt(code, j')
          {
            assert i <= i';
          }
        }
        None
      else
        assert code[j..j + 2] == "//";
        assert code[j] == code[j..j + 2][0] == '/';
        assert !IsSpace(code[j]);
        assert forall t :: i + |Opening| <= t < a ==> IsSpace(code[t]);
        assert a <= j;
        Some(code[a..j])
  }

  // ---------------------------------------------------------------------------
  // Scanning the directives

  /** One `// @key value` directive as the entry regular expression reads it. */
  datatype Directive = Directive(key: string, value: string)

  predicate NotSpace(c: char) { !IsSpace(c) }
  predicate NotLineTerminator(c: char) { !IsLineTerminator(c) }

  /**
   * The directive the entry expression `//\s*@(\S+)\s+(.*)$` matches at index `q`,
   * paired with the index where the match ends.
   */
  function DirectiveAt(h: string, q: nat): (r: Option<(Directive, nat)>)
    ensures r.Some? ==> q < r.value.1 <= |h|
  {
    if !OccursAt(h, "//", q) then None
    else
      var at := SkipSpace(h, q + 2);
      if at >= |h| || h[at] != '@' then None
      else
        var kn := SpanFrom(h, at + 1, NotSpace);
        var ke := at + 1 + kn;
        if kn == 0 || ke >= |h| then None
        else
          var vs := SkipSpace(h, ke);
          var vn := SpanFrom(h, vs, NotLineTerminator);
          Some((Directive(h[at + 1..ke], h[vs..vs + vn]), vs + vn))
  }

  /** Every directive of the header from index `p` on, in source order (the global `exec` loop). */
  function Directives(h: string, p: nat): seq<Directive>
    decreases |h| - p
  {
    if p >= |h| then []
    else
      match DirectiveAt(h, p)
      case Some((d, end)) => [d] + Directives(h, end)
      case None => Directives(h, p + 1)
  }

  // ---------------------------------------------------------------------------
  // Normalising keys and values

  /** `name.replace(/[-_](\w)/g, upper-case of the word character)`. */
  function CamelCase(s: string): (r: string)
    ensures |r| <= |s|
  {
    if |s| >= 2 && (s[0] == '-' || s[0] == '_') && IsWordChar(s[1]) then [UpperAscii(s[1])] + CamelCase(s[2..])
    else if |s| == 0 then ""
    else [s[0]] + CamelCase(s[1..])
  }

  /** The key a directive is stored under: camel-cased name, then `:locale` in lower case when a locale is given. */
  function NormalizeKey(k: string): string {
    var name := BeforeFirst(k, ':');
    var camel := CamelCase(name);
    if |name| < |k| then
      var locale := BeforeFirst(k[|name| + 1..], ':');
      if locale != "" then camel + ":" + LowerAsciiString(locale) else camel
    else camel
  }

  /** The first 'IITC plugin: ' and then the first 'IITC Plugin: ' are cut out of a name. */
  function StripNamePrefix(v: string): string {
    ReplaceFirst(ReplaceFirst(v, "IITC plugin: ", ""), "IITC Plugin: ", "")
  }

  /** The value a directive is stored with. */
  function NormalizeValue(d: Directive): string {
    if CamelCase(BeforeFirst(d.key, ':')) == "name" then StripNamePrefix(d.value) else d.value
  }

  /** Records one directive: list keys append, every other key is overwritten. */
  function AddDirective(meta: Record, key: string, value: string): Record {
    if key in ArrayKeys then
      var prev := if key in meta && meta[key].Arr? then meta[key].items else [];
      meta[key := Arr(prev + [Str(value)])]
    else
      meta[key := Str(value)]
  }

  /** The descriptor built from a sequence of directives, first to last. */
  function Collect(ds: seq<Directive>): Record {
    if |ds| == 0 then map[]
    else
      var d := ds[|ds| - 1];
      AddDirective(Collect(ds[..|ds| - 1]), NormalizeKey(d.key), NormalizeValue(d))
  }

  /** `@homepageURL` falls back to `@homepage` when it is missing or empty. */
  function WithHomepage(meta: Record): Record {
    if !TruthyOpt(Get(meta, "homepageURL")) && TruthyOpt(Get(meta, "homepage")) then meta["homepageURL" := meta["homepage"]]
    else meta
  }

  /** The directives of a userscript's header, in source order. */
  function HeaderDirectives(code: string): seq<Directive>
    requires HasBlock(code)
  {
    Directives(HeaderText(code).value, 0)
  }

  /** Every value stored for `key`, in source order. */
  function ValuesFor(ds: seq<Directive>, key: string): seq<Value> {
    if |ds| == 0 then []
    else
      var d := ds[|ds| - 1];
      ValuesFor(ds[..|ds| - 1], key) + (if NormalizeKey(d.key) == key then [Str(NormalizeValue(d))] else [])
  }

  /** The value of the last directive stored under `key`, if any. */
  function LastValueFor(ds: seq<Directive>, key: string): Option<Value> {
    if |ds| == 0 then None
    else
      var d := ds[|ds| - 1];
      if NormalizeKey(d.key) == key then Some(Str(NormalizeValue(d))) else LastValueFor(ds[..|ds| - 1], key)
  }

  /**
   * The descriptor records the directives: a list key holds every value given for it,
   * in source order, and is absent when there is none; any other key (the homepage
   * fallback aside) holds the value of its last directive.
   */
  ghost predicate Describes(meta: Record, ds: seq<Directive>) {
    && (forall k :: k in ArrayKeys ==>
         Get(meta, k) == (if ValuesFor(ds, k) == [] then None else Some(Arr(ValuesFor(ds, k)))))
    && (forall k :: k !in ArrayKeys && k != "homepageURL" ==> Get(meta, k) == LastValueFor(ds, k))
  }

  /**
   * `parseMeta`: `None` (undefined) exactly when the text has no header block; otherwise
   * the descriptor of the header's directives.
   */
  function ParseMeta(code: string): (r: Option<Record>)
    ensures r.None? <==> !HasBlock(code)
    ensures r.Some? ==> Describes(r.value, HeaderDirectives(code))
  {
    match HeaderText(code)
    case None => None
    case Some(h) =>
      var ds := Directives(h, 0);
      CollectSpec(ds);
      Some(WithHomepage(Collect(ds)))
  }

  /** Only `homepageURL` can differ between a descriptor and its homepage-completed form. */
  lemma WithHomepageOnlyTouchesHomepageUrl(meta: Record, k: string)
    requires k != "homepageURL"
    ensures Get(WithHomepage(meta), k) == Get(meta, k)
  {
  }

  lemma CollectSpec(ds: seq<Directive>)
    ensures Describes(WithHomepage(Collect(ds)), ds)
  {
    forall k | k in ArrayKeys
      ensures Get(Collect(ds), k) == (if ValuesFor(ds, k) == [] then None else Some(Arr(ValuesFor(ds, k))))
    {
      CollectList(ds, k);
    }
    forall k | k !in ArrayKeys
      ensures Get(Collect(ds), k) == LastValueFor(ds, k)
    {
      CollectScalar(ds, k);
    }
    assert "homepageURL" !in ArrayKeys;
  }

  lemma {:induction false} CollectList(ds: seq<Directive>, k: string)
    requires k in ArrayKeys
    ensures Get(Collect(ds), k) == (if ValuesFor(ds, k) == [] then None else Some(Arr(ValuesFor(ds, k))))
  {
    if |ds| > 0 {
      var pre, d := ds[..|ds| - 1], ds[|ds| - 1];
      CollectList(pre, k);
      assert Collect(ds) == AddDirective(Collect(pre), NormalizeKey(d.key), NormalizeValue(d));
      assert ValuesFor(ds, k) == ValuesFor(pre, k) + (if NormalizeKey(d.key) == k then [Str(NormalizeValue(d))] else []);
      if NormalizeKey(d.key) == k {
        var prev := if k in Collect(pre) && Collect(pre)[k].Arr? then Collect(pre)[k].items else [];
        assert prev == ValuesFor(pre, k);
        assert Collect(ds)[k] == Arr(prev + [Str(NormalizeValue(d))]);
      } else {
        assert ValuesFor(ds, k) == ValuesFor(pre, k);
        assert Get(Collect(ds), k) == Get(Collect(pre), k);
      }
    }
  }

  lemma {:induction false} CollectScalar(ds: seq<Directive>, k: string)
    requires k !in ArrayKeys
    ensures Get(Collect(ds), k) == LastValueFor(ds, k)
  {
    if |ds| > 0 {
      CollectScalar(ds[..|ds| - 1], k);
    }
  }
}

module MetaHeaderFacts {
  import opened Wrappers
  import opened Text
  import opened Json
  import opened MetaHeader

  predicate NoSeparator(s: string) {
    forall i :: 0 <= i < |s| ==> s[i] != '-' && s[i] != '_'
  }

  /** A key without '-' or '_' is already camel-cased. */
  lemma {:induction false} CamelCaseKeepsPlainKeys(s: string)
    requires NoSeparator(s)
    ensures CamelCase(s) == s
  {
    if |s| > 0 {
      CamelCaseKeepsPlainKeys(s[1..]);
    }
  }

  /** A '-' or '_' before a word character is dropped and the character upper-cased. */
  lemma {:induction false} CamelCaseJoins(a: string, sep: char, c: char, b: string)
    requires NoSeparator(a)
    requires sep == '-' || sep == '_'
    requires IsWordChar(c)
    ensures CamelCase(a + [sep, c] + b) == a + [UpperAscii(c)] + CamelCase(b)
  {
    if |a| == 0 {
      assert a + [sep, c] + b == [sep, c] + b;
      assert ([sep, c] + b)[2..] == b;
    } else {
      var s := a + [sep, c] + b;
      assert s[0] == a[0] && a[0] != '-' && a[0] != '_';
      assert s[1..] == a[1..] + [sep, c] + b;
      CamelCaseJoins(a[1..], sep, c, b);
      assert a + [UpperAscii(c)] + CamelCase(b) == [a[0]] + (a[1..] + [UpperAscii(c)] + CamelCase(b));
    }
  }

  /** `@exclude-match` is stored as `excludeMatch`, one of the list keys. */
  lemma ExcludeMatchKey()
    ensures NormalizeKey("exclude-match") == "excludeMatch"
    ensures "excludeMatch" in ArrayKeys
  {
    ExcludeMatchCamel();
    ExcludeMatchHasNoLocale();
  }

  lemma ExcludeMatchCamel()
    ensures CamelCase("exclude-match") == "excludeMatch"
  {
    var a, b := "exclude", "atch";
    CamelCaseJoins(a, '-', 'm', b);
    CamelCaseKeepsPlainKeys(b);
    assert a + ['-', 'm'] + b == "exclude-match";
    assert a + [UpperAscii('m')] + b == "excludeMatch";
  }

  lemma ExcludeMatchHasNoLocale()
    ensures NormalizeKey("exclude-match") == CamelCase("exclude-match")
  {
    var k := "exclude-match";
    assert forall i :: 0 <= i < |k| ==> k[i] != ':';
    KeyWithoutLocale(k);
  }

  /** A key without ':' is only camel-cased. */
  lemma {:induction false} KeyWithoutLocale(k: string)
    requires forall i :: 0 <= i < |k| ==> k[i] != ':'
    ensures NormalizeKey(k) == CamelCase(k)
  {
    BeforeFirstWhole(k, ':');
  }

  lemma {:induction false} BeforeFirstWhole(s: string, c: char)
    requires forall i :: 0 <= i < |s| ==> s[i] != c
    ensures BeforeFirst(s, c) == s
  {
    if |s| > 0 {
      BeforeFirstWhole(s[1..], c);
    }
  }

  lemma {:induction false} BeforeFirstSplit(a: string, c: char, b: string)
    requires forall i :: 0 <= i < |a| ==> a[i] != c
    ensures BeforeFirst(a + [c] + b, c) == a
  {
    if |a| > 0 {
      assert (a + [c] + b)[1..] == a[1..] + [c] + b;
      BeforeFirstSplit(a[1..], c, b);
    }
  }

  /** `@name:LOCALE` is stored as `name:locale`, the locale lower-cased. */
  lemma LocaleLowerCased(name: string, locale: string)
    requires forall i :: 0 <= i < |name| ==> name[i] != ':'
    requires forall i :: 0 <= i < |locale| ==> locale[i] != ':'
    requires locale != ""
    ensures NormalizeKey(name + ":" + locale) == CamelCase(name) + ":" + LowerAsciiString(locale)
  {
    var k := name + ":" + locale;
    BeforeFirstSplit(name, ':', locale);
    assert k[|name| + 1..] == locale;
    BeforeFirstWhole(locale, ':');
  }

  /** A name that starts with 'IITC plugin: ' loses that prefix (and then a first 'IITC Plugin: ', if any). */
  lemma StripsLowerCasePrefix(x: string)
    ensures StripNamePrefix("IITC plugin: " + x) == ReplaceFirst(x, "IITC Plugin: ", "")
  {
    var s := "IITC plugin: " + x;
    assert s[..13] == "IITC plugin: ";
    ReplaceFirstAtStart(s, "IITC plugin: ", "");
    assert s[13..] == x;
    assert ReplaceFirst(s, "IITC plugin: ", "") == x;
  }

  /** A name without either prefix is kept as written. */
  lemma NamesWithoutPrefixKept(x: string)
    requires forall j :: 0 <= j <= |x| ==> !OccursAt(x, "IITC plugin: ", j) && !OccursAt(x, "IITC Plugin: ", j)
    ensures StripNamePrefix(x) == x
  {
  }

  /** `homepageURL` is copied from `homepage` only when it is missing or empty. */
  lemma HomepageFallback(meta: Record)
    ensures Get(WithHomepage(meta), "homepageURL") ==
      (if !TruthyOpt(Get(meta, "homepageURL")) && TruthyOpt(Get(meta, "homepage")) then Get(meta, "homepage")
       else Get(meta, "homepageURL"))
    ensures forall k :: k != "homepageURL" ==> Get(WithHomepage(meta), k) == Get(meta, k)
  {
  }

  predicate IsLowerAscii(c: char) { 'a' <= c <= 'z' }

  /** Camel-casing starts with the original first character or with an upper-cased one. */
  lemma CamelCaseFirst(t: string)
    requires |t| > 0
    ensures |CamelCase(t)| > 0
    ensures IsLowerAscii(CamelCase(t)[0]) ==> CamelCase(t)[0] == t[0]
  {
  }

  /** A '-' that survives camel-casing is never followed by a lower-case letter. */
  lemma {:induction false} CamelCaseNoDashLower(s: string)
    ensures forall i :: 0 <= i < |CamelCase(s)| - 1 && CamelCase(s)[i] == '-' ==> !IsLowerAscii(CamelCase(s)[i + 1])
  {
    var r := CamelCase(s);
    if |s| >= 2 && (s[0] == '-' || s[0] == '_') && IsWordChar(s[1]) {
      CamelCaseNoDashLower(s[2..]);
      assert r == [UpperAscii(s[1])] + CamelCase(s[2..]);
      assert r[0] != '-';
      assert forall i :: 1 <= i < |r| ==> r[i] == CamelCase(s[2..])[i - 1];
    } else if |s| > 0 {
      CamelCaseNoDashLower(s[1..]);
      var rest := CamelCase(s[1..]);
      assert r == [s[0]] + rest;
      if r[0] == '-' && |r| > 1 {
        CamelCaseFirst(s[1..]);
        assert r[1] == rest[0];
        assert !IsWordChar(s[1]);
      }
      assert forall i :: 1 <= i < |r| ==> r[i] == rest[i - 1];
    }
  }

  /** No directive is ever stored under the key 'exclude-match': its dash would have been camel-cased away. */
  lemma NoKeyIsDashedExcludeMatch(k: string)
    ensures NormalizeKey(k) != "exclude-match"
  {
    var target := "exclude-match";
    var name := BeforeFirst(k, ':');
    var camel := CamelCase(name);
    var r := NormalizeKey(k);
    CamelCaseNoDashLower(name);
    assert target[7] == '-' && target[8] == 'm';
    if r == camel {
      if |r| == 13 && r[7] == '-' {
        assert !IsLowerAscii(r[8]);
      }
    } else {
      var locale := BeforeFirst(k[|name| + 1..], ':');
      assert r == camel + ":" + LowerAsciiString(locale);
      assert r[|camel|] == ':';
      assert forall i :: 0 <= i < |target| ==> target[i] != ':';
    }
  }

  /** A key no directive normalises to has no value. */
  lemma {:induction false} NeverStored(ds: seq<Directive>, key: string)
    requires forall k :: NormalizeKey(k) != key
    ensures LastValueFor(ds, key) == None
    ensures ValuesFor(ds, key) == []
  {
    if |ds| > 0 {
      NeverStored(ds[..|ds| - 1], key);
    }
  }

  /** A parsed descriptor never holds the key 'exclude-match'. */
  lemma ParsedHasNoDashedExcludeMatch(code: string)
    requires ParseMeta(code).Some?
    ensures Get(ParseMeta(code).value, "exclude-match") == None
  {
    forall k
      ensures NormalizeKey(k) != "exclude-match"
    {
      NoKeyIsDashedExcludeMatch(k);
    }
    NeverStored(HeaderDirectives(code), "exclude-match");
  }
}
