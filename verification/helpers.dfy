/** Plugin identity and the Ingress-site matcher of the helper module. */
module Helpers {
  import opened Wrappers
  import opened Text
  import opened Json

  /** The descriptor fields a uid may be built from, in the order they are consulted. */
  const UidFields: seq<string> := ["id", "filename", "name", "namespace"]

  /** Field `i` of the uid order is present (truthy) in the descriptor. */
  predicate UidFieldPresent(p: Record, i: int) {
    0 <= i < 4 && TruthyOpt(Get(p, UidFields[i]))
  }

  /** The indices below `n` of the present uid fields, in ascending order. */
  function PresentFields(p: Record, n: nat): (a: seq<nat>)
    requires n <= 4
    ensures forall k :: 0 <= k < |a| ==> a[k] < n && UidFieldPresent(p, a[k])
    ensures forall k, l :: 0 <= k < l < |a| ==> a[k] < a[l]
    ensures forall i :: 0 <= i < n && UidFieldPresent(p, i) ==> i in a
  {
    if n == 0 then []
    else if UidFieldPresent(p, n - 1) then PresentFields(p, n - 1) + [n - 1]
    else PresentFields(p, n - 1)
  }

  /** The text a present uid field contributes to the uid. */
  function FieldText(p: Record, i: nat): string
    requires UidFieldPresent(p, i)
  {
    JsString(p[UidFields[i]])
  }

  /**
   * The uid of a plugin: the last two present fields among id, filename, name and
   * namespace, joined with '+'; `None` (null) when fewer than two are present.
   */
  function GetUID(p: Record): (r: Option<string>)
    ensures r.None? <==> !exists i, j :: 0 <= i < j < 4 && UidFieldPresent(p, i) && UidFieldPresent(p, j)
    ensures r.Some? ==>
      exists i, j :: 0 <= i < j < 4 && UidFieldPresent(p, i) && UidFieldPresent(p, j)
        && (forall k :: i < k < 4 && k != j ==> !UidFieldPresent(p, k))
        && r.value == FieldText(p, i) + "+" + FieldText(p, j)
  {
    var a := PresentFields(p, 4);
    if |a| < 2 then
      None
    else
      var i, j := a[|a| - 2], a[|a| - 1];
      assert forall k :: i < k < 4 && k != j ==> !UidFieldPresent(p, k) by {
        forall k | i < k < 4 && k != j
          ensures !UidFieldPresent(p, k)
        {
        }
      }
      Some(FieldText(p, i) + "+" + FieldText(p, j))
  }

  /** A uid always contains the '+' separator, so it never equals a bare word such as a category name or "null". */
  lemma UidHasSeparator(p: Record)
    requires GetUID(p).Some?
    ensures '+' in GetUID(p).value
  {
    var i, j :| 0 <= i < j < 4 && UidFieldPresent(p, i) && UidFieldPresent(p, j)
        && (forall k :: i < k < 4 && k != j ==> !UidFieldPresent(p, k))
        && GetUID(p).value == FieldText(p, i) + "+" + FieldText(p, j);
    assert GetUID(p).value[|FieldText(p, i)|] == '+';
  }

  /** The uid depends on the four identity fields only: status, code, category and the rest never change it. */
  lemma UidDependsOnIdentityFieldsOnly(p: Record, q: Record)
    requires forall f :: f in UidFields ==> Get(p, f) == Get(q, f)
    ensures GetUID(p) == GetUID(q)
  {
    assert forall i :: 0 <= i < 4 ==> Get(p, UidFields[i]) == Get(q, UidFields[i]);
    PresentFieldsAgree(p, q, 4);
    var a := PresentFields(p, 4);
    if |a| >= 2 {
      FieldTextAgrees(p, q, a[|a| - 2]);
      FieldTextAgrees(p, q, a[|a| - 1]);
    }
  }

  lemma FieldTextAgrees(p: Record, q: Record, i: nat)
    requires UidFieldPresent(p, i)
    requires Get(p, UidFields[i]) == Get(q, UidFields[i])
    ensures UidFieldPresent(q, i) && FieldText(p, i) == FieldText(q, i)
  {
  }

  lemma {:induction false} PresentFieldsAgree(p: Record, q: Record, n: nat)
    requires n <= 4
    requires forall i :: 0 <= i < 4 ==> Get(p, UidFields[i]) == Get(q, UidFields[i])
    ensures PresentFields(p, n) == PresentFields(q, n)
  {
    if n > 0 {
      PresentFieldsAgree(p, q, n - 1);
    }
  }

  // ---------------------------------------------------------------------------
  // Ingress-site matcher

  /**
   * Index just past the scheme when the URL starts with `http://`, `https://` or `*://`.
   * The three prefixes exclude one another, so this decides the regular-expression
   * alternation `^(http|https|\*):\/\/`.
   */
  function SchemeEnd(url: string): (e: Option<nat>)
    ensures e.Some? ==> e.value <= |url|
  {
    if StartsWith(url, "http://") then Some(7)
    else if StartsWith(url, "https://") then Some(8)
    else if StartsWith(url, "*://") then Some(4)
    else None
  }

  /** The URL is `(http|https|*)://` followed by `rest` and anything after it. */
  predicate SchemePrefixed(url: string, rest: string) {
    var e := SchemeEnd(url);
    e.Some? && StartsWith(url[e.value..], rest)
  }

  predicate IntelUrl(url: string) {
    || SchemePrefixed(url, "intel.ingress.com/")
    || SchemePrefixed(url, "www.ingress.com/intel")
    || SchemePrefixed(url, "ingress.com/intel")
  }

  predicate MissionsUrl(url: string) {
    SchemePrefixed(url, "missions.ingress.com/")
  }

  /**
   * A match/include pattern targets the given Ingress site: the intel map (for domain
   * 'intel.ingress.com' or '<all>') or the missions site (for 'missions.ingress.com' or '<all>').
   */
  function CheckUrlMatchPattern(url: string, domain: string): (r: bool)
    ensures r ==> domain == "<all>" || domain == "intel.ingress.com" || domain == "missions.ingress.com"
    ensures r ==> SchemeEnd(url).Some?
    ensures domain == "intel.ingress.com" ==> (r <==> IntelUrl(url))
    ensures domain == "missions.ingress.com" ==> (r <==> MissionsUrl(url))
    ensures domain == "<all>" ==> (r <==> IntelUrl(url) || MissionsUrl(url))
  {
    if IntelUrl(url) && (domain == "<all>" || domain == "intel.ingress.com") then true
    else if MissionsUrl(url) && (domain == "<all>" || domain == "missions.ingress.com") then true
    else false
  }

  /** No pattern targets both the intel map and the missions site. */
  lemma IntelAndMissionsExclusive(url: string)
    ensures !(CheckUrlMatchPattern(url, "intel.ingress.com") && CheckUrlMatchPattern(url, "missions.ingress.com"))
  {
    if MissionsUrl(url) {
      assert url[SchemeEnd(url).value..][0] == 'm';
    }
  }

  /** One entry of a match/include list, as iterated by `for … of`. */
  function ListUrls(v: Option<Value>): seq<string> {
    match v
    case Some(Arr(items)) => seq(|items|, i requires 0 <= i < |items| => JsString(items[i]))
    case Some(Str(s)) => seq(|s|, i requires 0 <= i < |s| => [s[i]])
    case _ => []
  }

  /** True when some url of the list targets the domain. */
  function AnyUrlMatches(urls: seq<string>, domain: string): (r: bool)
    ensures r <==> exists i :: 0 <= i < |urls| && CheckUrlMatchPattern(urls[i], domain)
  {
    if |urls| == 0 then false
    else CheckUrlMatchPattern(urls[0], domain) || AnyUrlMatches(urls[1..], domain)
  }

  /**
   * A plugin targets the Ingress site when some entry of its `match` or `include`
   * list passes the site test; absent or empty lists give false.
   */
  function CheckMetaMatchPattern(meta: Record, domain: string): (r: bool)
    ensures r <==>
      || (exists i :: 0 <= i < |ListUrls(Get(meta, "match"))| && CheckUrlMatchPattern(ListUrls(Get(meta, "match"))[i], domain))
      || (exists i :: 0 <= i < |ListUrls(Get(meta, "include"))| && CheckUrlMatchPattern(ListUrls(Get(meta, "include"))[i], domain))
  {
    AnyUrlMatches(ListUrls(Get(meta, "match")), domain) || AnyUrlMatches(ListUrls(Get(meta, "include")), domain)
  }

  /** A string-valued list is iterated character by character, and no single character names a site. */
  lemma StringListNeverMatches(s: string, domain: string)
    ensures !AnyUrlMatches(ListUrls(Some(Str(s))), domain)
  {
  }

  /** Without match and include lists a plugin never targets an Ingress site. */
  lemma NoListsNoMatch(meta: Record, domain: string)
    requires "match" !in meta && "include" !in meta
    ensures !CheckMetaMatchPattern(meta, domain)
  {
  }
}
