/**
 * The redirect handler: a table from normalised host names to rules,
 * built once, and the per-request dispatch that answers with the health
 * report, the landing page, a 302 redirect or a 404 page.
 */
module Redirector {
  import opened Wrappers
  import opened Strings
  import opened Config
  import opened Http
  import Tables

  const HealthPath := "/health"
  const IndexPath := "/"
  const JsonContentType := "application/json"
  const HtmlContentType := "text/html; charset=utf-8"

  /** The outcome of reading the landing page file "./index.html". */
  datatype FileRead = ReadOk(content: string) | ReadFailed

  /** What `GetStats` reports: the number of rules and the configured host
      names, in no particular order. */
  datatype Stats = Stats(totalRules: nat, configuredHosts: seq<string>)

  // -----------------------------------------------------------------------
  // The rule table
  // -----------------------------------------------------------------------

  /** The table key of a rule: its `from`, trimmed and lower-cased. */
  function RuleKey(r: RedirectRule): string
  {
    Lower(TrimSpace(r.from))
  }

  /** `NewRedirectHandler`'s table: the rules inserted in order, each under
      its key, a later rule replacing an earlier one with the same key. */
  function BuildTable(rs: seq<RedirectRule>): map<string, RedirectRule>
  {
    Tables.Build(rs, RuleKey)
  }

  /** The keys of all the rules. */
  ghost function KeySet(rs: seq<RedirectRule>): set<string>
  {
    Tables.Keys(rs, RuleKey)
  }

  /** The table has one key per normalised `from`, and no other. */
  lemma BuildTableKeys(rs: seq<RedirectRule>)
    ensures BuildTable(rs).Keys == (set r | r in rs :: RuleKey(r))
  {
    Tables.BuildKeys(rs, RuleKey);
  }

  /** The number of rules in the table is the number of distinct
      normalised hosts, never more than the number of input rules. */
  lemma BuildTableSize(rs: seq<RedirectRule>)
    ensures |BuildTable(rs)| == |KeySet(rs)| <= |rs|
  {
    Tables.BuildSize(rs, RuleKey);
  }

  /** The last rule with a given key is the one the table holds for it. */
  lemma BuildTableLastWins(rs: seq<RedirectRule>, j: int)
    requires 0 <= j < |rs|
    requires forall j' :: j < j' < |rs| ==> RuleKey(rs[j']) != RuleKey(rs[j])
    ensures RuleKey(rs[j]) in BuildTable(rs)
    ensures BuildTable(rs)[RuleKey(rs[j])] == rs[j]
  {
    Tables.BuildLastWins(rs, RuleKey, j);
  }

  /** Every entry of the table is an input rule, unnormalised, filed under
      its own key, and no later rule has that key. */
  lemma BuildTableFromInput(rs: seq<RedirectRule>, k: string)
    requires k in BuildTable(rs)
    ensures exists j :: 0 <= j < |rs| && BuildTable(rs)[k] == rs[j] && RuleKey(rs[j]) == k
                        && forall j' :: j < j' < |rs| ==> RuleKey(rs[j']) != k
  {
    Tables.BuildFromInput(rs, RuleKey, k);
  }

  /** Two rules for the same host: only the later one is kept. */
  lemma DuplicateKeepsLater(first: RedirectRule, second: RedirectRule)
    requires RuleKey(first) == RuleKey(second)
    ensures BuildTable([first, second]) == map[RuleKey(second) := second]
    ensures |BuildTable([first, second])| == 1
  {
    assert [first, second][..1] == [first];
    assert [first][..0] == [];
    assert Tables.Build([first], RuleKey) == map[][RuleKey(first) := first];
  }

  /** A key contains no upper-case letter and neither starts nor ends with
      whitespace. */
  lemma RuleKeyNormalised(r: RedirectRule)
    ensures NoUpper(RuleKey(r))
    ensures RuleKey(r) == [] || (!IsSpace(RuleKey(r)[0]) && !IsSpace(RuleKey(r)[|RuleKey(r)| - 1]))
  {
    var t := TrimSpace(r.from);
    LowerIsLowerCase(t);
    if t != [] {
      LowerKeepsSpace(t, 0);
      LowerKeepsSpace(t, |t| - 1);
    }
  }

  /** Every table key is lower-case and trimmed. */
  lemma TableKeysNormalised(rs: seq<RedirectRule>, k: string)
    requires k in BuildTable(rs)
    ensures NoUpper(k)
    ensures k == [] || (!IsSpace(k[0]) && !IsSpace(k[|k| - 1]))
  {
    BuildTableKeys(rs);
    var r :| r in rs && RuleKey(r) == k;
    RuleKeyNormalised(r);
  }

  // -----------------------------------------------------------------------
  // Host normalisation
  // -----------------------------------------------------------------------

  /** The Host header lower-cased and cut before its first colon (which
      drops a ":port" suffix). */
  function NormalizeHost(host: string): (h: string)
    ensures ':' !in h
    ensures |h| <= |host| && h == Lower(host)[..|h|]
    ensures ':' !in host ==> h == Lower(host)
    ensures ':' in host ==> host[|h|] == ':'
  {
    var lowered := Lower(host);
    match IndexOf(lowered, ':')
    case None => lowered
    case Some(i) => lowered[..i]
  }

  // -----------------------------------------------------------------------
  // Response bodies
  // -----------------------------------------------------------------------

  /** The fixed parts of the health report around its two numbers. */
  const HealthHead := "{\"status\":\"healthy\",\"service\":\"iletken\",\"version\":\"1.0.0\",\"stats\":{\"total_rules\":"
  const HealthMiddle := ",\"configured_hosts\":"
  const HealthTail := "}}"

  /** The health report with the two numbers it carries. */
  function HealthBody(totalRules: nat, configuredHosts: nat): string
  {
    HealthHead + (NatDecimal(totalRules) + (HealthMiddle + (NatDecimal(configuredHosts) + HealthTail)))
  }

  const NotFoundHead :=
    "<!DOCTYPE html>\n<html>\n<head>\n    <title>404 - Page Not Found</title>\n"
    + "    <meta charset=\"utf-8\">\n    <style>\n"
    + "        body { font-family: Arial, sans-serif; text-align: center; margin-top: 50px; }\n"
    + "        .error { color: #d32f2f; }\n    </style>\n</head>\n<body>\n"
    + "    <h1 class=\"error\">404 - Page Not Found</h1>\n"
    + "    <p>No redirect rule found for host ("

  const NotFoundTail :=
    ").</p>\n    <p><em>\U{0130}letken - HTTP Redirector</em></p>\n</body>\n</html>"

  /** The 404 page: the host is placed into the HTML as it is, unescaped. */
  function NotFoundPage(host: string): string
  {
    NotFoundHead + host + NotFoundTail
  }

  /** The page served for "/" when "./index.html" cannot be read. */
  const FallbackIndexPage :=
    "<!DOCTYPE html>\n<html>\n<head>\n    <title>\U{0130}letken - HTTP Redirector</title>\n"
    + "    <meta charset=\"utf-8\">\n    <style>\n"
    + "        body { font-family: Arial, sans-serif; text-align: center; margin-top: 50px; }\n"
    + "        .logo { font-size: 2em; color: #667eea; margin-bottom: 20px; }\n"
    + "    </style>\n</head>\n<body>\n    <div class=\"logo\">\U{0130}letken</div>\n"
    + "    <h2>HTTP Redirector Service</h2>\n"
    + "    <p>Service is running. <a href=\"/health\">Health Check</a></p>\n</body>\n</html>"

  // -----------------------------------------------------------------------
  // Responses
  // -----------------------------------------------------------------------

  /** The headers of a redirect: its target and three headers that keep
      the redirect out of caches. */
  function RedirectHeaders(target: string): map<string, string>
  {
    map[
      "Location" := target,
      "Cache-Control" := "no-cache, no-store, must-revalidate",
      "Pragma" := "no-cache",
      "Expires" := "0"]
  }

  function HealthResponse(rules: map<string, RedirectRule>): Response
  {
    Response(StatusOK, JsonContentType, map[], HealthBody(|rules|, |rules|))
  }

  function IndexResponse(index: FileRead): Response
  {
    match index
    case ReadOk(content) => Response(StatusOK, HtmlContentType, map[], content)
    case ReadFailed => Response(StatusOK, HtmlContentType, map[], FallbackIndexPage)
  }

  /** A redirect to `target`: no body, and the content type left at its
      default. */
  function RedirectResponse(target: string): Response
  {
    Response(StatusFound, DefaultContentType, RedirectHeaders(target), "")
  }

  function NotFoundResponse(host: string): Response
  {
    Response(StatusNotFound, HtmlContentType, map[], NotFoundPage(host))
  }

  /** The response `Handle` produces, from a blank response: the checks
      in their order, the first that applies deciding. A redirect leaves
      the content type at its default and the body empty. */
  function Dispatch(rules: map<string, RedirectRule>, req: Request, index: FileRead): Response
  {
    if req.path == HealthPath then HealthResponse(rules)
    else if req.path == IndexPath then IndexResponse(index)
    else
      var host := NormalizeHost(req.host);
      if host in rules then RedirectResponse(rules[host].to) else NotFoundResponse(host)
  }

  // -----------------------------------------------------------------------
  // What a request gets
  // -----------------------------------------------------------------------

  /** "/health" is answered with the JSON health report whatever the Host
      header and whatever the table holds; the report gives the rule count
      for both of its numbers. */
  lemma HealthAlwaysAnswers(rules: map<string, RedirectRule>, req: Request, index: FileRead)
    requires req.path == HealthPath
    ensures var r := Dispatch(rules, req, index);
      && r.status == StatusOK
      && r.contentType == JsonContentType
      && "Location" !in r.headers
      && r.body == HealthBody(|rules|, |rules|)
  {
  }

  /** "/" is answered with the landing page, status 200 and HTML, for any
      Host header: even one that names a configured host is neither
      redirected nor refused. Without a readable "./index.html" the built-in
      page is served. */
  lemma IndexBeforeRules(rules: map<string, RedirectRule>, req: Request, index: FileRead)
    requires req.path == IndexPath
    ensures var r := Dispatch(rules, req, index);
      && r.status == StatusOK
      && r.status != StatusFound && r.status != StatusNotFound
      && r.contentType == HtmlContentType
      && "Location" !in r.headers
      && r.body == (if index.ReadOk? then index.content else FallbackIndexPage)
  {
  }

  /** Any other path whose normalised host is in the table gets a 302 to
      that rule's target, with the three cache-defeating headers and no
      body. */
  lemma RedirectOnKnownHost(rules: map<string, RedirectRule>, req: Request, index: FileRead)
    requires req.path != HealthPath && req.path != IndexPath
    requires NormalizeHost(req.host) in rules
    ensures var r := Dispatch(rules, req, index);
      && r.status == StatusFound
      && r.headers.Keys == {"Location", "Cache-Control", "Pragma", "Expires"}
      && r.headers["Location"] == rules[NormalizeHost(req.host)].to
      && r.headers["Cache-Control"] == "no-cache, no-store, must-revalidate"
      && r.headers["Pragma"] == "no-cache"
      && r.headers["Expires"] == "0"
      && r.body == ""
  {
  }

  /** Any other path whose normalised host is not in the table gets a 404
      HTML page that contains that host, character for character, with no
      escaping. */
  lemma NotFoundOnUnknownHost(rules: map<string, RedirectRule>, req: Request, index: FileRead)
    requires req.path != HealthPath && req.path != IndexPath
    requires NormalizeHost(req.host) !in rules
    ensures var r := Dispatch(rules, req, index);
      var host := NormalizeHost(req.host);
      && r.status == StatusNotFound
      && r.contentType == HtmlContentType
      && r.headers == map[]
      && |r.body| >= |NotFoundHead| + |host|
      && r.body[|NotFoundHead|..|NotFoundHead| + |host|] == host
  {
    var host := NormalizeHost(req.host);
    var body := NotFoundPage(host);
    assert body == NotFoundHead + host + NotFoundTail;
    assert body[|NotFoundHead|..|NotFoundHead| + |host|] == host;
  }

  /** A configured rule is reached from a Host header that spells its
      `from` in any letter case, with or without a ":port" suffix, when no
      later rule has the same host and the trimmed `from` has no colon. */
  lemma RuleReachable(rs: seq<RedirectRule>, j: int, name: string, port: string,
                      path: string, index: FileRead)
    requires 0 <= j < |rs|
    requires forall j' :: j < j' < |rs| ==> RuleKey(rs[j']) != RuleKey(rs[j])
    requires ':' !in RuleKey(rs[j])
    requires Lower(name) == RuleKey(rs[j])
    requires port == [] || port[0] == ':'
    requires path != HealthPath && path != IndexPath
    ensures var r := Dispatch(BuildTable(rs), Request(path, name + port), index);
      r.status == StatusFound && r.headers["Location"] == rs[j].to
  {
    BuildTableLastWins(rs, j);
    HostWithPort(name, port);
  }

  /** Cutting at the first colon drops a ":port" suffix from a name that
      has no colon. */
  lemma HostWithPort(name: string, port: string)
    requires ':' !in Lower(name)
    requires port == [] || port[0] == ':'
    ensures NormalizeHost(name + port) == Lower(name)
  {
    LowerAppend(name, port);
    IndexOfAppend(Lower(name), Lower(port), ':');
    if port != [] {
      assert Lower(port)[0] == ':';
    } else {
      assert name + port == name;
    }
  }

  /** A rule whose trimmed `from` holds a colon can never be reached:
      every normalised host is cut before its first colon. */
  lemma ColonRuleUnreachable(rule: RedirectRule, req: Request)
    requires ':' in TrimSpace(rule.from)
    ensures NormalizeHost(req.host) != RuleKey(rule)
  {
    var t := TrimSpace(rule.from);
    var i :| 0 <= i < |t| && t[i] == ':';
    LowerKeeps(t, ':', i);
  }

  /** The Host header is not trimmed: one that starts with whitespace never
      matches a rule, because table keys never start with whitespace. */
  lemma PaddedHostNotFound(rs: seq<RedirectRule>, req: Request, index: FileRead)
    requires req.path != HealthPath && req.path != IndexPath
    requires req.host != [] && IsSpace(req.host[0])
    ensures Dispatch(BuildTable(rs), req, index).status == StatusNotFound
  {
    var host := NormalizeHost(req.host);
    assert req.host[0] != ':';
    LowerKeepsSpace(req.host, 0);
    if ':' in req.host {
      assert |host| > 0;
    }
    assert host[0] == Lower(req.host)[0];
    if host in BuildTable(rs) {
      TableKeysNormalised(rs, host);
    }
  }

  /** A `from` of only whitespace (which validation lets through) is filed
      under the empty key, so a request with an empty Host header, or one
      that is only ":port", is redirected by it. */
  lemma BlankFromMatchesEmptyHost(blank: string, to: string, port: string, path: string,
                                  index: FileRead)
    requires forall k :: 0 <= k < |blank| ==> IsSpace(blank[k])
    requires port == [] || port[0] == ':'
    requires path != HealthPath && path != IndexPath
    ensures var r := Dispatch(BuildTable([RedirectRule(blank, to)]), Request(path, port), index);
      r.status == StatusFound && r.headers["Location"] == to
  {
    TrimSpaceEmpty(blank);
    assert Lower("") == "";
    assert "" + port == port;
    RuleReachable([RedirectRule(blank, to)], 0, "", port, path, index);
  }

  /** The key of a rule for "Example.COM". */
  lemma ExampleKey(to: string)
    ensures RuleKey(RedirectRule("Example.COM", to)) == "example.com"
  {
    assert TrimSpace("Example.COM") == "Example.COM";
    assert Lower("Example.COM") == "example.com";
  }

  /** A rule for "Example.COM" redirects a request for "/foo" on host
      "example.com:8080". */
  lemma ExampleRedirect(index: FileRead)
    ensures var rs := [RedirectRule("Example.COM", "https://new.example.com")];
      var r := Dispatch(BuildTable(rs), Request("/foo", "example.com:8080"), index);
      r.status == StatusFound && r.headers["Location"] == "https://new.example.com"
  {
    var rule := RedirectRule("Example.COM", "https://new.example.com");
    ExampleKey(rule.to);
    assert "example.com" + ":8080" == "example.com:8080";
    RuleReachable([rule], 0, "example.com", ":8080", "/foo", index);
  }

  /** The health report of a handler built from `rs` counts the distinct
      normalised hosts of `rs`. */
  lemma HealthCountsDistinctHosts(rs: seq<RedirectRule>, req: Request, index: FileRead)
    requires req.path == HealthPath
    ensures Dispatch(BuildTable(rs), req, index).body == HealthBody(|KeySet(rs)|, |KeySet(rs)|)
  {
    BuildTableSize(rs);
  }

  /** The health report determines both numbers it carries. */
  lemma HealthBodyDeterminesStats(a: nat, b: nat, c: nat, d: nat)
    requires HealthBody(a, b) == HealthBody(c, d)
    ensures a == c && b == d
  {
    var restB, restD := NatDecimal(b) + HealthTail, NatDecimal(d) + HealthTail;
    SamePrefix(HealthHead, NatDecimal(a) + (HealthMiddle + restB), NatDecimal(c) + (HealthMiddle + restD));
    DigitsThenStop(NatDecimal(a), HealthMiddle + restB, NatDecimal(c), HealthMiddle + restD);
    SamePrefix(HealthMiddle, restB, restD);
    DigitsThenStop(NatDecimal(b), HealthTail, NatDecimal(d), HealthTail);
    NatDecimalInjective(a, c);
    NatDecimalInjective(b, d);
  }

  /** `RedirectHandler`: the rule table, built once by the constructor and
      only read afterwards. */
  class Handler {
    const rules: map<string, RedirectRule>

    /** `NewRedirectHandler`: inserts every rule under its key, in order. */
    constructor (redirects: seq<RedirectRule>)
      ensures rules == BuildTable(redirects)
    {
      var table: map<string, RedirectRule> := map[];
      var i := 0;
      while i < |redirects|
        invariant 0 <= i <= |redirects|
        invariant table == BuildTable(redirects[..i])
      {
        var rule := redirects[i];
        var host := Lower(TrimSpace(rule.from));
        assert redirects[..i + 1][..i] == redirects[..i];
        table := table[host := rule];
        i := i + 1;
      }
      assert redirects[..|redirects|] == redirects;
      rules := table;
    }

    /** `GetStats`: the rule count, and every configured host exactly once. */
    method GetStats() returns (stats: Stats)
      ensures stats.totalRules == |rules|
      ensures |stats.configuredHosts| == |rules|
      ensures forall i :: 0 <= i < |stats.configuredHosts| ==> stats.configuredHosts[i] in rules
      ensures forall h :: h in rules ==> h in stats.configuredHosts
      ensures forall i, j :: 0 <= i < j < |stats.configuredHosts| ==>
                stats.configuredHosts[i] != stats.configuredHosts[j]
    {
      var hosts: seq<string> := [];
      var remaining := rules.Keys;
      while remaining != {}
        invariant remaining <= rules.Keys
        invariant forall i :: 0 <= i < |hosts| ==> hosts[i] in rules && hosts[i] !in remaining
        invariant forall h :: h in rules ==> h in remaining || h in hosts
        invariant forall i, j :: 0 <= i < j < |hosts| ==> hosts[i] != hosts[j]
        invariant |hosts| + |remaining| == |rules.Keys|
        decreases remaining
      {
        var h :| h in remaining;
        hosts := hosts + [h];
        remaining := remaining - {h};
      }
      stats := Stats(|rules|, hosts);
    }

    /** `handleHealthCheck` */
    method HandleHealthCheck(ctx: ResponseCtx)
      requires ctx.Snapshot() == Blank
      modifies ctx
      ensures ctx.Snapshot() == HealthResponse(rules)
    {
      ctx.SetStatusCode(StatusOK);
      ctx.SetContentType(JsonContentType);
      var stats := GetStats();
      var body := HealthBody(stats.totalRules, |stats.configuredHosts|);
      ctx.Write(body);
    }

    /** `handleIndexPage`, given the outcome of reading "./index.html". */
    method HandleIndexPage(index: FileRead, ctx: ResponseCtx)
      requires ctx.Snapshot() == Blank
      modifies ctx
      ensures ctx.Snapshot() == IndexResponse(index)
    {
      if index.ReadFailed? {
        ctx.SetStatusCode(StatusOK);
        ctx.SetContentType(HtmlContentType);
        ctx.Write(FallbackIndexPage);
        return;
      }
      ctx.SetStatusCode(StatusOK);
      ctx.SetContentType(HtmlContentType);
      ctx.Write(index.content);
    }

    /** `Handle`: fills in the blank response the server provides. */
    method Handle(req: Request, index: FileRead, ctx: ResponseCtx)
      requires ctx.Snapshot() == Blank
      modifies ctx
      ensures ctx.Snapshot() == Dispatch(rules, req, index)
    {
      if req.path == HealthPath {
        HandleHealthCheck(ctx);
        return;
      }
      if req.path == IndexPath {
        HandleIndexPage(index, ctx);
        return;
      }
      var host := Lower(req.host);
      var colon := IndexOf(host, ':');
      if colon.Some? {
        host := host[..colon.value];
      }
      assert host == NormalizeHost(req.host);
      if host !in rules {
        ctx.SetStatusCode(StatusNotFound);
        ctx.SetContentType(HtmlContentType);
        var page := NotFoundPage(host);
        ctx.Write(page);
        assert "" + page == page;
        return;
      }
      var rule := rules[host];
      ctx.SetStatusCode(StatusFound);
      ctx.SetHeader("Location", rule.to);
      ctx.SetHeader("Cache-Control", "no-cache, no-store, must-revalidate");
      ctx.SetHeader("Pragma", "no-cache");
      ctx.SetHeader("Expires", "0");
      assert ctx.Snapshot() == RedirectResponse(rule.to);
    }
  }
}
