/**
 * The configuration records of the redirector and the checks run on them
 * before the server starts: `Config.Validate` and `ServerConfig.GetAddress`.
 */
module Config {
  import opened Wrappers
  import opened Strings

  /** One redirect: requests for host `from` are sent to `to`. */
  datatype RedirectRule = RedirectRule(from: string, to: string)

  datatype ServerConfig = ServerConfig(
    host: string,
    port: int,
    readTimeout: string,
    writeTimeout: string,
    idleTimeout: string)

  datatype LoggingConfig = LoggingConfig(level: string, format: string)

  datatype Config = Config(
    server: ServerConfig,
    redirects: seq<RedirectRule>,
    logging: LoggingConfig)

  /** Why a configuration is refused. Rule indices are 1-based, as in the
      error text the program prints. */
  datatype ValidationError =
    | InvalidPort(port: int)
    | NoRedirects
    | EmptyFrom(index: nat)
    | EmptyTo(index: nat)

  const MaxPort := 65535

  predicate PortInRange(port: int) { 1 <= port <= MaxPort }

  /** A rule with both fields present. No trimming is applied, so a `from`
      made only of spaces counts as present. */
  predicate RuleComplete(r: RedirectRule) { r.from != "" && r.to != "" }

  /** Index `k` (0-based) holds the first incomplete rule at or after `i`. */
  predicate FirstIncompleteFrom(rules: seq<RedirectRule>, i: nat, k: int)
  {
    && i <= k < |rules|
    && !RuleComplete(rules[k])
    && forall j :: i <= j < k ==> RuleComplete(rules[j])
  }

  /** The declarative meaning of a valid configuration. */
  predicate WellFormed(c: Config)
  {
    && PortInRange(c.server.port)
    && |c.redirects| >= 1
    && forall j :: 0 <= j < |c.redirects| ==> RuleComplete(c.redirects[j])
  }

  /** The error that reports rule `k` (0-based): a missing `from` is
      reported before a missing `to`. */
  function RuleError(r: RedirectRule, k: nat): ValidationError
  {
    if r.from == "" then EmptyFrom(k + 1) else EmptyTo(k + 1)
  }

  /** The loop over the rules in `Validate`, from position `i` on: it
      stops at the first incomplete rule and names it. */
  function CheckRulesFrom(rules: seq<RedirectRule>, i: nat): (r: Outcome<ValidationError>)
    requires i <= |rules|
    ensures r.Pass? <==> forall j :: i <= j < |rules| ==> RuleComplete(rules[j])
    ensures r.Fail? ==>
      && (r.error.EmptyFrom? || r.error.EmptyTo?)
      && 1 <= r.error.index
      && FirstIncompleteFrom(rules, i, r.error.index - 1)
      && (r.error.EmptyFrom? <==> rules[r.error.index - 1].from == "")
    decreases |rules| - i
  {
    if i == |rules| then Pass
    else if rules[i].from == "" then Fail(EmptyFrom(i + 1))
    else if rules[i].to == "" then Fail(EmptyTo(i + 1))
    else CheckRulesFrom(rules, i + 1)
  }

  /** `Config.Validate`: the port, then the presence of rules, then each
      rule in order. */
  function Validate(c: Config): (r: Outcome<ValidationError>)
    ensures !PortInRange(c.server.port) ==> r == Fail(InvalidPort(c.server.port))
    ensures PortInRange(c.server.port) && c.redirects == [] ==> r == Fail(NoRedirects)
    ensures r.Pass? <==> WellFormed(c)
  {
    if c.server.port <= 0 || c.server.port > MaxPort then Fail(InvalidPort(c.server.port))
    else if |c.redirects| == 0 then Fail(NoRedirects)
    else CheckRulesFrom(c.redirects, 0)
  }

  /** When the port is valid and rules exist, the error names the first
      incomplete rule in list order, `from` before `to`. */
  lemma ValidateReportsFirstIncomplete(c: Config, k: nat)
    requires PortInRange(c.server.port) && c.redirects != []
    requires FirstIncompleteFrom(c.redirects, 0, k)
    ensures Validate(c) == Fail(RuleError(c.redirects[k], k))
  {
  }

  /** A `from` made only of whitespace is not refused. */
  lemma BlankFromPasses(c: Config, blank: string)
    requires PortInRange(c.server.port)
    requires blank != [] && forall k :: 0 <= k < |blank| ==> IsSpace(blank[k])
    requires c.redirects == [RedirectRule(blank, "https://example.org/")]
    ensures Validate(c) == Pass
  {
  }

  /** `ServerConfig.GetAddress`: the listen address "host:port". */
  function GetAddress(s: ServerConfig): string
  {
    s.host + ":" + IntDecimal(s.port)
  }

  /** The last colon of the address separates the configured host from
      the decimal port, and reading that port back gives the configured
      one. */
  lemma GetAddressSplits(s: ServerConfig)
    ensures var a := GetAddress(s);
      && |a| > |s.host|
      && a[..|s.host|] == s.host
      && a[|s.host|] == ':'
      && ':' !in a[|s.host| + 1..]
      && a[|s.host| + 1..] == IntDecimal(s.port)
      && ParseInt(a[|s.host| + 1..]) == s.port
  {
    var a := GetAddress(s);
    assert a[|s.host| + 1..] == IntDecimal(s.port);
    ParseIntDecimal(s.port);
  }
}
