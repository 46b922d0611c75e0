/** The `@match` / `@include` / `@exclude-match` / `@exclude` URL matcher. */
module Matching {
  import opened Wrappers
  import opened Text
  import opened Json
  import opened MetaHeader
  import opened MetaHeaderFacts

  // ---------------------------------------------------------------------------
  // Wildcards (`str2RE`)

  /** Characters that would stay regular-expression syntax after `str2RE`'s escaping. */
  predicate IsRegexSyntax(c: char) {
    c == '\\' || c == '^' || c == '$' || c == '+' || c == '(' || c == ')'
    || c == '[' || c == ']' || c == '{' || c == '}' || c == '|'
  }

  /** A wildcard whose only special character is `*`. */
  predicate GlobSafe(pat: string) {
    forall i :: 0 <= i < |pat| ==> !IsRegexSyntax(pat[i])
  }

  /**
   * `str2RE(pat).test(s)`: the pattern anchored at both ends, each `*` standing for
   * any run of characters other than line terminators (the expression `.*?`), every
   * other character for itself.
   */
  function GlobMatch(pat: string, s: string): bool
    decreases |pat| + |s|
  {
    if |pat| == 0 then |s| == 0
    else if pat[0] == '*' then
      GlobMatch(pat[1..], s) || (|s| > 0 && !IsLineTerminator(s[0]) && GlobMatch(pat, s[1..]))
    else
      |s| > 0 && s[0] == pat[0] && GlobMatch(pat[1..], s[1..])
  }

  predicate NoStar(s: string) {
    forall i :: 0 <= i < |s| ==> s[i] != '*'
  }

  /** Without `*` a wildcard matches only itself. */
  lemma {:induction false} GlobLiteral(pat: string, s: string)
    requires NoStar(pat)
    ensures GlobMatch(pat, s) <==> s == pat
  {
    if |pat| > 0 && |s| > 0 {
      GlobLiteral(pat[1..], s[1..]);
      if s[0] == pat[0] && s[1..] == pat[1..] {
        assert s == [s[0]] + s[1..] && pat == [pat[0]] + pat[1..];
      }
    }
  }

  /** A `*` followed by a literal matches exactly the texts ending with the literal after a line-terminator-free prefix. */
  lemma {:induction false} GlobStarThenLiteral(lit: string, s: string)
    requires NoStar(lit)
    ensures GlobMatch("*" + lit, s) <==> EndsWith(s, lit) && NoLineTerminator(s[..|s| - |lit|])
    decreases |s|
  {
    var pat := "*" + lit;
    assert pat[0] == '*' && pat[1..] == lit;
    GlobLiteral(lit, s);
    if |s| > 0 {
      GlobStarThenLiteral(lit, s[1..]);
      if |lit| <= |s| - 1 {
        assert s[1..][|s[1..]| - |lit|..] == s[|s| - |lit|..];
        assert s[1..][..|s[1..]| - |lit|] == s[1..|s| - |lit|];
        assert s[..|s| - |lit|] == [s[0]] + s[1..|s| - |lit|];
      }
      if EndsWith(s, lit) && |lit| == |s| {
        assert s == lit;
      }
    }
  }

  /** `*` alone matches every text without a line terminator. */
  lemma GlobStarAlone(s: string)
    ensures GlobMatch("*", s) <==> NoLineTerminator(s)
  {
    GlobStarThenLiteral("", s);
    assert "*" + "" == "*";
  }

  /** A literal followed by `*` matches exactly the texts that start with the literal and go on without a line terminator. */
  lemma {:induction false} GlobLiteralThenStar(lit: string, s: string)
    requires NoStar(lit)
    ensures GlobMatch(lit + "*", s) <==> StartsWith(s, lit) && NoLineTerminator(s[|lit|..])
  {
    if |lit| == 0 {
      assert lit + "*" == "*";
      GlobStarAlone(s);
    } else {
      assert (lit + "*")[0] == lit[0] && (lit + "*")[1..] == lit[1..] + "*";
      if |s| > 0 {
        GlobLiteralThenStar(lit[1..], s[1..]);
        if |lit| <= |s| {
          assert s[1..][|lit[1..]|..] == s[|lit|..];
        }
        if s[0] == lit[0] && StartsWith(s[1..], lit[1..]) {
          assert s[..|lit|] == [s[0]] + s[1..][..|lit| - 1];
          assert lit == [lit[0]] + lit[1..];
        }
        if StartsWith(s, lit) {
          assert s[1..][..|lit| - 1] == s[..|lit|][1..];
        }
      }
    }
  }

  // ---------------------------------------------------------------------------
  // Splitting URLs (`/(.*?):\/\/([^/]*)\/(.*)/`)

  datatype UrlParts = UrlParts(scheme: string, host: string, path: string)

  /** Index of the last line terminator before `upTo`, or -1. */
  function LastLineTerminator(s: string, upTo: nat): (r: int)
    requires upTo <= |s|
    ensures -1 <= r < upTo
    ensures r >= 0 ==> IsLineTerminator(s[r])
    ensures forall i :: r < i < upTo ==> !IsLineTerminator(s[i])
    decreases upTo
  {
    if upTo <= 0 then -1
    else if IsLineTerminator(s[upTo - 1]) then upTo - 1
    else LastLineTerminator(s, upTo - 1)
  }

  /**
   * What `String.prototype.match` with the URL expression captures. The lazy scheme
   * stops at the first `://`, and may not cross a line terminator, so the match starts
   * just after the last line terminator before it; the host runs to the next '/', and
   * the path to the end of that line. No '/' after the `://` means no match at all.
   */
  function SplitUrl(s: string): (r: Option<UrlParts>)
    ensures r.Some? ==> exists i :: 0 <= i <= |s| && OccursAt(s, "://", i)
    ensures r.Some? ==> NoLineTerminator(r.value.scheme) && NoLineTerminator(r.value.path)
    ensures r.Some? ==> NoSlash(r.value.host)
  {
    SplitAfter(s, FindFrom(s, "://", 0))
  }

  /** The captures once the first `://` is known to be at `i` (-1: there is none). */
  function SplitAfter(s: string, i: int): (r: Option<UrlParts>)
    requires i == -1 || (0 <= i && OccursAt(s, "://", i))
    ensures r.Some? ==> i >= 0 && OccursAt(s, "://", i)
    ensures r.Some? ==> NoLineTerminator(r.value.scheme) && NoLineTerminator(r.value.path)
    ensures r.Some? ==> NoSlash(r.value.host)
  {
    if i == -1 then None
    else
      var k := i + 3 + SpanFrom(s, i + 3, NotSlash);
      if k == |s| then None
      else Some(PartsAt(s, i, k))
  }

  /** The captures once the `://` at `i` and the '/' at `k` are known. */
  function PartsAt(s: string, i: nat, k: nat): (r: UrlParts)
    requires i + 3 <= k < |s|
    requires forall j :: i + 3 <= j < k ==> s[j] != '/'
    ensures NoLineTerminator(r.scheme) && NoLineTerminator(r.path) && NoSlash(r.host)
  {
    var p := LastLineTerminator(s, i) + 1;
    var q := k + 1 + SpanFrom(s, k + 1, NotLineTerminator);
    UrlParts(s[p..i], s[i + 3..k], s[k + 1..q])
  }

  predicate NotSlash(c: char) { c != '/' }

  predicate NotLineTerminator(c: char) { !IsLineTerminator(c) }

  predicate NoSlash(s: string) {
    forall i :: 0 <= i < |s| ==> s[i] != '/'
  }

  /** The first occurrence from `from` on is the one with none before it. */
  lemma FindFromIs(s: string, p: string, from: nat, k: nat)
    requires from <= k <= |s| && OccursAt(s, p, k)
    requires forall j :: from <= j < k ==> !OccursAt(s, p, j)
    ensures FindFrom(s, p, from) == k
  {
  }

  /** In `scheme + "://" + …` the first `://` is the one after the scheme. */
  lemma {:induction false} SchemeSeparatorFirst(scheme: string, rest: string)
    requires forall j :: 0 <= j <= |scheme| ==> !OccursAt(scheme, "://", j)
    ensures FindFrom(scheme + "://" + rest, "://", 0) == |scheme|
  {
    var s := scheme + "://" + rest;
    var n := |scheme|;
    assert s[n..n + 3] == "://";
    assert s[n] == ':';
    forall j | 0 <= j < n
      ensures !OccursAt(s, "://", j)
    {
      if j + 3 <= n {
        assert scheme[j..j + 3] == s[j..j + 3];
        assert !OccursAt(scheme, "://", j);
      } else {
        var t := s[j..j + 3];
        assert t[n - j] == s[n] == ':';
        assert "://"[n - j] == '/';
      }
    }
    FindFromIs(s, "://", 0, n);
  }

  /** In `… + host + "/" + …` with a slash-free host, the host runs up to that '/'. */
  lemma HostEnd(pre: string, host: string, path: string)
    requires NoSlash(host)
    ensures SpanFrom(pre + host + "/" + path, |pre|, NotSlash) == |host|
  {
    var s := pre + host + "/" + path;
    var m := SpanFrom(s, |pre|, NotSlash);
    assert forall j :: |pre| <= j < |pre| + |host| ==> s[j] == host[j - |pre|];
    assert s[|pre| + |host|] == '/';
  }

  /** `SplitUrl` once the separator positions and the line ends are known. */
  lemma SplitUrlAt(s: string, i: nat, k: nat, parts: UrlParts)
    requires i + 3 <= k < |s|
    requires FindFrom(s, "://", 0) == i && SpanFrom(s, i + 3, NotSlash) == k - (i + 3)
    requires LastLineTerminator(s, i) == -1 && SpanFrom(s, k + 1, NotLineTerminator) == |s| - (k + 1)
    requires parts == UrlParts(s[0..i], s[i + 3..k], s[k + 1..|s|])
    ensures SplitUrl(s) == Some(parts)
  {
    SplitUrlFound(s, i, k);
    PartsAtKnown(s, i, k);
  }

  /** `SplitUrl` finds the separators where they are. */
  lemma SplitUrlFound(s: string, i: nat, k: nat)
    requires i + 3 <= k < |s|
    requires FindFrom(s, "://", 0) == i && SpanFrom(s, i + 3, NotSlash) == k - (i + 3)
    ensures SplitUrl(s) == Some(PartsAt(s, i, k))
  {
    SplitAfterFound(s, i, k);
  }

  lemma SplitAfterFound(s: string, i: nat, k: nat)
    requires i + 3 <= k < |s| && OccursAt(s, "://", i)
    requires SpanFrom(s, i + 3, NotSlash) == k - (i + 3)
    ensures SplitAfter(s, i) == Some(PartsAt(s, i, k))
  {
  }

  /** The captures with no line terminator around them. */
  lemma PartsAtKnown(s: string, i: nat, k: nat)
    requires i + 3 <= k < |s|
    requires forall j :: i + 3 <= j < k ==> s[j] != '/'
    requires LastLineTerminator(s, i) == -1 && SpanFrom(s, k + 1, NotLineTerminator) == |s| - (k + 1)
    ensures PartsAt(s, i, k) == UrlParts(s[0..i], s[i + 3..k], s[k + 1..|s|])
  {
  }

  lemma NoLineTerminatorBefore(s: string, n: nat)
    requires n <= |s| && NoLineTerminator(s[..n])
    ensures LastLineTerminator(s, n) == -1
  {
  }

  lemma NoLineTerminatorAfter(s: string, from: nat)
    requires from <= |s| && NoLineTerminator(s[from..])
    ensures SpanFrom(s, from, NotLineTerminator) == |s| - from
  {
  }

  lemma Pieces(a: string, b: string, c: string, d: string, e: string)
    ensures (a + b + c + d + e)[..|a|] == a
    ensures (a + b + c + d + e)[0..|a|] == a
    ensures (a + b + c + d + e)[|a| + |b|..|a| + |b| + |c|] == c
    ensures (a + b + c + d + e)[|a| + |b| + |c| + |d|..] == e
    ensures (a + b + c + d + e)[|a| + |b| + |c| + |d|..|a + b + c + d + e|] == e
  {
    var s := a + b + c + d + e;
    assert s == a + (b + c + d + e);
    assert s == (a + b) + (c + (d + e));
    assert s == (a + b + c + d) + e;
  }

  /** Building a URL from its parts and splitting it again gives the parts back. */
  lemma SplitUrlRoundTrip(scheme: string, host: string, path: string)
    requires forall j :: 0 <= j <= |scheme| ==> !OccursAt(scheme, "://", j)
    requires NoLineTerminator(scheme) && NoLineTerminator(path)
    requires NoSlash(host)
    ensures SplitUrl(scheme + "://" + host + "/" + path) == Some(UrlParts(scheme, host, path))
  {
    var s := scheme + "://" + host + "/" + path;
    var n := |scheme|;
    var k := n + 3 + |host|;
    BuiltUrlSeparators(scheme, host, path);
    BuiltUrlLines(scheme, host, path);
    SplitUrlAt(s, n, k, UrlParts(scheme, host, path));
  }

  /** In a built URL, the first `://` follows the scheme and the host runs to the next '/'. */
  lemma BuiltUrlSeparators(scheme: string, host: string, path: string)
    requires forall j :: 0 <= j <= |scheme| ==> !OccursAt(scheme, "://", j)
    requires NoSlash(host)
    ensures var s := scheme + "://" + host + "/" + path;
      FindFrom(s, "://", 0) == |scheme| && |scheme| + 3 + |host| < |s| && SpanFrom(s, |scheme| + 3, NotSlash) == |host|
  {
    var pre := scheme + "://";
    var s := pre + host + "/" + path;
    assert s == scheme + "://" + (host + "/" + path);
    SchemeSeparatorFirst(scheme, host + "/" + path);
    HostEnd(pre, host, path);
  }

  /** In a built URL, the pieces are where they were put, with no line terminator before the scheme or in the path. */
  lemma BuiltUrlLines(scheme: string, host: string, path: string)
    requires NoLineTerminator(scheme) && NoLineTerminator(path)
    ensures var s := scheme + "://" + host + "/" + path;
      var n := |scheme|;
      var k := n + 3 + |host|;
      && s[0..n] == scheme && s[n + 3..k] == host && s[k + 1..|s|] == path
      && LastLineTerminator(s, n) == -1
      && SpanFrom(s, k + 1, NotLineTerminator) == |s| - (k + 1)
  {
    var s := scheme + "://" + host + "/" + path;
    var k := |scheme| + 3 + |host|;
    Pieces(scheme, "://", host, "/", path);
    NoLineTerminatorBefore(s, |scheme|);
    NoLineTerminatorAfter(s, k + 1);
  }

  // ---------------------------------------------------------------------------
  // Match rules

  /** `/^https?$/i`. */
  predicate IsHttpScheme(data: string) {
    LowerAsciiString(data) == "http" || LowerAsciiString(data) == "https"
  }

  /** Scheme rule `*` accepts exactly http and https in any case; any other rule must equal the scheme. */
  function MatchScheme(rule: string, data: string): (r: bool)
    ensures rule == "*" ==> (r <==> data == "*" || IsHttpScheme(data))
    ensures rule != "*" ==> (r <==> rule == data)
  {
    rule == data || (rule == "*" && IsHttpScheme(data))
  }

  /** The host rule has the form `*.domain` with no further `*`. */
  predicate IsSubdomainRule(rule: string) {
    |rule| >= 2 && rule[0] == '*' && rule[1] == '.' && NoStar(rule[2..])
  }

  /** Host rules whose wildcard is handed to the regular-expression engine are wildcard-safe. */
  predicate HostRuleSafe(rule: string) {
    IsSubdomainRule(rule) ==> GlobSafe(rule)
  }

  /** `matchHost`. */
  function MatchHost(rule: string, data: string): (r: bool)
    requires HostRuleSafe(rule)
    ensures rule == "*" ==> r
    ensures !IsSubdomainRule(rule) && rule != "*" ==> (r <==> rule == data)
    ensures IsSubdomainRule(rule) ==>
      (r <==> data == rule[2..] || (EndsWith(data, rule[1..]) && NoLineTerminator(data[..|data| - |rule[1..]|])))
  {
    if rule == "*" then true
    else if rule == data then true
    else if IsSubdomainRule(rule) then
      assert rule == "*" + rule[1..];
      GlobStarThenLiteral(rule[1..], data);
      rule[2..] == data || GlobMatch(rule, data)
    else false
  }

  /** `*.example.com` accepts example.com itself and the hosts under it. */
  lemma SubdomainHostExamples(sub: string, domain: string)
    requires NoStar(domain) && GlobSafe("*." + domain)
    requires NoLineTerminator(sub)
    ensures MatchHost("*." + domain, domain)
    ensures MatchHost("*." + domain, sub + "." + domain)
  {
    var rule := "*." + domain;
    assert rule[2..] == domain;
    assert IsSubdomainRule(rule);
    var data := sub + "." + domain;
    assert rule[1..] == "." + domain;
    assert data[|data| - |rule[1..]|..] == "." + domain;
    assert data[..|data| - |rule[1..]|] == sub;
  }

  /** `matchPath`. */
  function MatchPath(rule: string, data: string): bool
    requires GlobSafe(rule)
  {
    GlobMatch(rule, data)
  }

  /** The rule's host and path can be handed to `str2RE`. */
  predicate MatchRuleSafe(rule: string) {
    match SplitUrl(rule)
    case None => true
    case Some(p) => HostRuleSafe(p.host) && GlobSafe(p.path)
  }

  /** One match rule against one URL (`makeMatchRegExp(rule).test(url)`). */
  function MatchRule(rule: string, url: string): (r: bool)
    requires MatchRuleSafe(rule)
    ensures rule == "<all_urls>" ==> r
    ensures rule != "<all_urls>" && (SplitUrl(url).None? || SplitUrl(rule).None?) ==> !r
  {
    if rule == "<all_urls>" then true
    else
      match (SplitUrl(rule), SplitUrl(url))
      case (Some(rp), Some(up)) =>
        MatchScheme(rp.scheme, up.scheme) && MatchHost(rp.host, up.host) && MatchPath(rp.path, up.path)
      case _ => false
  }

  /** A regular-expression include rule `/…/`. */
  predicate IsRegexRule(rule: string) {
    |rule| > 1 && rule[0] == '/' && rule[|rule| - 1] == '/'
  }

  /** An include rule the model covers: a wildcard, not a regular expression. */
  predicate IncludeRuleSafe(rule: string) {
    !IsRegexRule(rule) && GlobSafe(rule)
  }

  /** `testMatch`: some rule matches. */
  function TestMatch(url: string, rules: seq<string>): (r: bool)
    requires forall i :: 0 <= i < |rules| ==> MatchRuleSafe(rules[i])
    ensures r <==> exists i :: 0 <= i < |rules| && MatchRule(rules[i], url)
  {
    if |rules| == 0 then false
    else MatchRule(rules[0], url) || TestMatch(url, rules[1..])
  }

  /** `testInclude` with wildcard rules: some rule matches. */
  function TestInclude(url: string, rules: seq<string>): (r: bool)
    requires forall i :: 0 <= i < |rules| ==> IncludeRuleSafe(rules[i])
    ensures r <==> exists i :: 0 <= i < |rules| && GlobMatch(rules[i], url)
  {
    if |rules| == 0 then false
    else GlobMatch(rules[0], url) || TestInclude(url, rules[1..])
  }

  /** More match rules never turn a match into a miss. */
  lemma TestMatchMonotone(url: string, rules: seq<string>, more: seq<string>)
    requires forall i :: 0 <= i < |rules| ==> MatchRuleSafe(rules[i])
    requires forall i :: 0 <= i < |more| ==> MatchRuleSafe(more[i])
    requires forall i :: 0 <= i < |rules| ==> rules[i] in more
    ensures TestMatch(url, rules) ==> TestMatch(url, more)
  {
    if TestMatch(url, rules) {
      var i :| 0 <= i < |rules| && MatchRule(rules[i], url);
      var j :| 0 <= j < |more| && more[j] == rules[i];
    }
  }

  /** More include rules never turn a match into a miss. */
  lemma TestIncludeMonotone(url: string, rules: seq<string>, more: seq<string>)
    requires forall i :: 0 <= i < |rules| ==> IncludeRuleSafe(rules[i])
    requires forall i :: 0 <= i < |more| ==> IncludeRuleSafe(more[i])
    requires forall i :: 0 <= i < |rules| ==> rules[i] in more
    ensures TestInclude(url, rules) ==> TestInclude(url, more)
  {
    if TestInclude(url, rules) {
      var i :| 0 <= i < |rules| && GlobMatch(rules[i], url);
      var j :| 0 <= j < |more| && more[j] == rules[i];
    }
  }

  // ---------------------------------------------------------------------------
  // The combined decision

  /** The four rule lists of a plugin descriptor. */
  datatype Rules = Rules(matches: seq<string>, includes: seq<string>, excludeMatch: seq<string>, excludes: seq<string>)

  /** `meta[key] || []` for a list of strings. */
  function RuleList(meta: Record, key: string): seq<string> {
    match Get(meta, key)
    case Some(Arr(items)) => seq(|items|, i requires 0 <= i < |items| => JsString(items[i]))
    case _ => []
  }

  /** The rule lists `check_matching` reads, the exclude-match list under the key 'exclude-match'. */
  function RulesOf(meta: Record): Rules {
    Rules(RuleList(meta, "match"), RuleList(meta, "include"), RuleList(meta, "exclude-match"), RuleList(meta, "exclude"))
  }

  predicate RulesSafe(r: Rules) {
    && (forall i :: 0 <= i < |r.matches| ==> MatchRuleSafe(r.matches[i]))
    && (forall i :: 0 <= i < |r.includes| ==> IncludeRuleSafe(r.includes[i]))
    && (forall i :: 0 <= i < |r.excludeMatch| ==> MatchRuleSafe(r.excludeMatch[i]))
    && (forall i :: 0 <= i < |r.excludes| ==> IncludeRuleSafe(r.excludes[i]))
  }

  /**
   * `check_matching`: an exclude-match or exclude rule vetoes the URL; otherwise a
   * match or include rule accepts it, and with neither list the keyword
   * '<all_ingress>' is accepted.
   */
  function CheckRules(r: Rules, url: string): (ok: bool)
    requires RulesSafe(r)
    ensures TestMatch(url, r.excludeMatch) || TestInclude(url, r.excludes) ==> !ok
    ensures |r.matches| == 0 && |r.includes| == 0 ==> (ok ==> url == "<all_ingress>")
    ensures !TestMatch(url, r.excludeMatch) && !TestInclude(url, r.excludes) ==>
      (ok <==> TestMatch(url, r.matches) || TestInclude(url, r.includes) || (|r.matches| == 0 && |r.includes| == 0 && url == "<all_ingress>"))
  {
    var ok0 := |r.matches| == 0 && |r.includes| == 0 && url == "<all_ingress>";
    var ok1 := ok0 || TestMatch(url, r.matches);
    var ok2 := ok1 || TestInclude(url, r.includes);
    var ok3 := ok2 && !TestMatch(url, r.excludeMatch);
    ok3 && !TestInclude(url, r.excludes)
  }

  /** `check_matching(meta, url)`. */
  function CheckMatching(meta: Record, url: string): bool
    requires RulesSafe(RulesOf(meta))
  {
    CheckRules(RulesOf(meta), url)
  }

  /** A '<all_urls>' match rule accepts every URL that no exclusion vetoes. */
  lemma AllUrlsAcceptsEverything(r: Rules, url: string)
    requires RulesSafe(r)
    requires "<all_urls>" in r.matches
    ensures CheckRules(r, url) <==> !TestMatch(url, r.excludeMatch) && !TestInclude(url, r.excludes)
  {
    var i :| 0 <= i < |r.matches| && r.matches[i] == "<all_urls>";
    assert MatchRule(r.matches[i], url);
  }

  // ---------------------------------------------------------------------------
  // `@exclude-match` as parsed from a header

  /**
   * `check_matching` reads the key 'exclude-match', but the header parser stores
   * `@exclude-match` under 'excludeMatch': on a parsed descriptor the exclude-match
   * list is always empty, and only the exclude list can veto.
   */
  lemma ExcludeMatchDirectivesIgnored(code: string, url: string)
    requires ParseMeta(code).Some?
    requires RulesSafe(RulesOf(ParseMeta(code).value))
    ensures RulesOf(ParseMeta(code).value).excludeMatch == []
    ensures var r := RulesOf(ParseMeta(code).value);
      CheckMatching(ParseMeta(code).value, url) <==>
        && (TestMatch(url, r.matches) || TestInclude(url, r.includes)
            || (|r.matches| == 0 && |r.includes| == 0 && url == "<all_ingress>"))
        && !TestInclude(url, r.excludes)
  {
    ParsedHasNoDashedExcludeMatch(code);
  }

  /** The rule lists of a parsed descriptor, the exclude-match list read from 'excludeMatch'. */
  function ParsedRulesOf(meta: Record): Rules {
    Rules(RuleList(meta, "match"), RuleList(meta, "include"), RuleList(meta, "excludeMatch"), RuleList(meta, "exclude"))
  }

  /** `check_matching` reading the exclude-match rules where the header parser puts them. */
  function CheckParsedMatching(meta: Record, url: string): bool
    requires RulesSafe(ParsedRulesOf(meta))
  {
    CheckRules(ParsedRulesOf(meta), url)
  }

  /** Every directive's value is among the values listed for its key. */
  lemma {:induction false} DirectiveListed(ds: seq<Directive>, i: nat)
    requires i < |ds|
    ensures Str(NormalizeValue(ds[i])) in ValuesFor(ds, NormalizeKey(ds[i].key))
  {
    if i < |ds| - 1 {
      DirectiveListed(ds[..|ds| - 1], i);
    }
  }

  /** The parsed descriptor lists every `@exclude-match` value under 'excludeMatch'. */
  lemma ParsedExcludeMatchList(code: string)
    requires ParseMeta(code).Some?
    requires ValuesFor(HeaderDirectives(code), "excludeMatch") != []
    ensures Get(ParseMeta(code).value, "excludeMatch") == Some(Arr(ValuesFor(HeaderDirectives(code), "excludeMatch")))
  {
    ExcludeMatchKey();
  }

  /** A string listed under a key is among that key's rules, at the same place. */
  lemma RuleListed(meta: Record, key: string, items: seq<Value>, j: nat, rule: string)
    requires Get(meta, key) == Some(Arr(items)) && j < |items| && items[j] == Str(rule)
    ensures j < |RuleList(meta, key)| && RuleList(meta, key)[j] == rule
  {
  }

  /** The value of an `@exclude-match` directive is among the rules the corrected reading finds. */
  lemma ExcludeMatchDirectiveListed(code: string, i: nat) returns (j: nat)
    requires ParseMeta(code).Some?
    requires i < |HeaderDirectives(code)|
    requires NormalizeKey(HeaderDirectives(code)[i].key) == "excludeMatch"
    ensures j < |ParsedRulesOf(ParseMeta(code).value).excludeMatch|
    ensures ParsedRulesOf(ParseMeta(code).value).excludeMatch[j] == NormalizeValue(HeaderDirectives(code)[i])
  {
    var ds := HeaderDirectives(code);
    var rule := NormalizeValue(ds[i]);
    var items := ValuesFor(ds, "excludeMatch");
    DirectiveListed(ds, i);
    ParsedExcludeMatchList(code);
    var k :| 0 <= k < |items| && items[k] == Str(rule);
    RuleListed(ParseMeta(code).value, "excludeMatch", items, k, rule);
    j := k;
  }

  /** With the corrected reading, an `@exclude-match` directive matching the URL vetoes it. */
  lemma ExcludeMatchDirectiveVetoes(code: string, url: string, i: nat)
    requires ParseMeta(code).Some?
    requires RulesSafe(ParsedRulesOf(ParseMeta(code).value))
    requires i < |HeaderDirectives(code)|
    requires NormalizeKey(HeaderDirectives(code)[i].key) == "excludeMatch"
    requires MatchRuleSafe(NormalizeValue(HeaderDirectives(code)[i]))
    requires MatchRule(NormalizeValue(HeaderDirectives(code)[i]), url)
    ensures !CheckParsedMatching(ParseMeta(code).value, url)
  {
    var j := ExcludeMatchDirectiveListed(code, i);
    var r := ParsedRulesOf(ParseMeta(code).value);
    assert TestMatch(url, r.excludeMatch);
  }
}
