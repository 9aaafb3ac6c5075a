# İletken host-based redirector, modelled in Dafny

İletken is an HTTP redirector. At startup it builds a table from
configured `from` host names to redirect rules. It then answers every
request from the request's `Host` header:

- `/health` gets a JSON health report;
- `/` gets a landing page;
- any other path gets a 302 redirect to the rule filed under the request's
  normalised host, or a 404 HTML page when there is no such rule.

This project models that handler, the configuration check run before the
server starts, and the logger's level and format selection.

Modules, one per concern:

- `Wrappers` (`wrappers.dfy`): `Option` and `Outcome`.
- `Strings` (`strings.dfy`): the parts of Go's `strings`, `unicode` and
  `fmt` that the code uses. These are ASCII lower-casing, `TrimSpace` over
  the full `unicode.IsSpace` set, the first index of a character, and `%d`
  printing together with a parser that inverts it.
- `Config` (`config.dfy`): the configuration records, `Validate` and
  `GetAddress`.
- `Logger` (`logger.dfy`): the level switch and the format switch of
  `NewLogger`.
- `Http` (`http.dfy`): the request and the mutable response context that
  fasthttp gives a handler. A fresh response has status 200, content type
  `text/plain; charset=utf-8` (fasthttp's default), no headers and an empty
  body.
- `Tables` (`tables.dfy`): building a map by inserting values in order
  under computed keys, where the last write wins. The facts are proved for
  any key function.
- `Redirector` (`redirector.dfy`): the `Handler` class and its methods.
  `Dispatch` is the pure function that specifies what `Handle` writes.
  The lemmas about `Dispatch` and `BuildTable` state the handler's
  behaviour.

Behaviour of the code that a reader of the model should not miss:

- `/` serves the landing page for every `Host`, before the host is looked
  at. A host that has a rule still gets the landing page on `/`.
- The 404 page embeds the normalised host unescaped, so markup in a `Host`
  header is reflected into the page.
- The health report gives the number of table keys twice: once as
  `total_rules` and once as the length of the `configured_hosts` list.

## Model

| member | source | states |
|---|---|---|
| `Redirector.Handler.constructor` | redirector/handler.go:21-34 | the table the constructor's loop builds is `BuildTable(redirects)` |
| `Redirector.BuildTableKeys` | redirector/handler.go:24-28 | the table's key set is exactly the set of `lower(trim(from))` over the input rules |
| `Redirector.BuildTableFromInput` | redirector/handler.go:24-28 | every stored value is an input rule, unnormalised, filed under its own key, and no later input rule has that key |
| `Redirector.BuildTableLastWins` | redirector/handler.go:26-27 | the last input rule for a key is the one stored under it (last write wins) |
| `Redirector.BuildTableSize` | redirector/handler.go:26-27 | the number of stored rules equals the number of distinct normalised keys and is at most the number of input rules |
| `Redirector.DuplicateKeepsLater` | redirector/handler.go:24-28 | two rules with the same normalised `from` leave a one-entry table holding the second |
| `Redirector.TableKeysNormalised` | redirector/handler.go:26 | every key has no upper-case letter and no leading or trailing whitespace |
| `Redirector.NormalizeHost` | redirector/handler.go:50-56 | the host is lowercased and cut before its first colon; the result has no colon, is a prefix of the lowercased host, is all of it when there is no colon, and is followed by the first colon otherwise |
| `Redirector.Handler.Handle` | redirector/handler.go:37-108 | filling a blank response yields exactly `Dispatch(rules, req, index)`: the health check, then `/`, then normalisation and lookup |
| `Redirector.Handler.HandleHealthCheck` | redirector/handler.go:111-124 | status 200, `application/json`, body reporting the `GetStats` count and host-list length |
| `Redirector.Handler.HandleIndexPage` | redirector/handler.go:127-167 | status 200 and HTML, with the file's contents when it was read and the built-in page when it was not |
| `Redirector.Handler.GetStats` | redirector/handler.go:170-181 | `total_rules` is the table size; `configured_hosts` lists every key once, has no duplicates and only keys, so its length is the table size |
| `Redirector.HealthAlwaysAnswers` | redirector/handler.go:39-42 | `/health` yields 200 with `application/json`, no redirect and a report of the table size, whatever the Host and the table |
| `Redirector.IndexBeforeRules` | redirector/handler.go:44-48 | `/` yields 200 with HTML and never 302 or 404, for any Host, even one in the table; the body is the file or the fallback page |
| `Redirector.RedirectOnKnownHost` | redirector/handler.go:95-107 | another path whose normalised host is in the table yields 302 with exactly the headers `Location` (the rule's `to`), `Cache-Control: no-cache, no-store, must-revalidate`, `Pragma: no-cache` and `Expires: 0`, and an empty body |
| `Redirector.NotFoundOnUnknownHost` | redirector/handler.go:67-92 | another path whose normalised host is missing yields 404 with `text/html; charset=utf-8`, and the body holds that host verbatim, unescaped |
| `Redirector.RuleReachable` | redirector/handler.go:50-67 | a Host spelling a rule's trimmed `from` in any letter case, with an optional `:port`, is redirected to that rule's `to` when the rule is the last for its key and its key has no colon |
| `Redirector.HostWithPort` | redirector/handler.go:53-56 | cutting at the first colon removes a `:port` suffix from a colon-free name |
| `Redirector.ColonRuleUnreachable` | redirector/handler.go:53-56 | a rule whose trimmed `from` contains a colon never matches any request |
| `Redirector.PaddedHostNotFound` | redirector/handler.go:51 | the request host is not trimmed, so a Host starting with whitespace always gets 404 |
| `Redirector.BlankFromMatchesEmptyHost` | redirector/handler.go:26-27 | a whitespace-only `from` is filed under the empty key, so an empty Host or a bare `:port` is redirected by it |
| `Redirector.ExampleKey` | redirector/handler.go:26 | the key of `Example.COM` is `example.com` |
| `Redirector.ExampleRedirect` | redirector/handler.go:50-67 | with a rule for `Example.COM`, a request for `/foo` on `example.com:8080` is redirected to the rule's target |
| `Redirector.HealthCountsDistinctHosts` | redirector/handler.go:115-119 | the health report of a handler built from a rule list counts the list's distinct normalised hosts |
| `Redirector.HealthBodyDeterminesStats` | redirector/handler.go:118-119 | the health body determines both numbers it reports: different counts give different bodies |
| `Config.CheckRulesFrom` | config/config.go:98-105 | the rule scan passes exactly when every rule has a non-empty `from` and `to`; a failure names the first incomplete rule by its 1-based index, reporting `from` before `to` |
| `Config.Validate` | config/config.go:89-107 | the port check comes first, then a non-empty rule list; validation passes exactly when the port is in 1..65535, there is at least one rule and every rule is complete |
| `Config.ValidateReportsFirstIncomplete` | config/config.go:98-104 | with a valid port and a rule list, the error is for the first incomplete rule in list order: `EmptyFrom` if its `from` is empty, else `EmptyTo` |
| `Config.BlankFromPasses` | config/config.go:99 | a whitespace-only `from` passes validation, because no trimming is applied |
| `Config.GetAddressSplits` | config/config.go:39-41 | the address is the host, a colon, then the decimal port; the part after the last colon reads back as the port |
| `Logger.SelectLevel` | logger/logger.go:15-26 | on the lowercased name, `debug` gives Debug, `warn` and `warning` give Warn, `error` gives Error, and anything else, including `info` and the empty string, gives Info (each as an if-and-only-if) |
| `Logger.SelectFormat` | logger/logger.go:34-41 | the text handler is chosen if and only if the lowercased name is `text`; otherwise the JSON handler is chosen |
| `Logger.NewLogger` | logger/logger.go:12-44 | the handler is the one the format switch picks and the options carry the level the level switch picks; spelled out, `debug` gives Debug, `warn` or `warning` give Warn, `error` gives Error and any other name gives Info, and `text` gives the text handler, each on the lowercased name |
| `Logger.LevelIndependentOfFormat` | logger/logger.go:30-40 | the level in the handler options depends only on the level name, whichever format is chosen |
| `Logger.SelectionIgnoresCase` | logger/logger.go:15-34 | a name and its lowercased form select the same level and the same handler |
| `Logger.MixedCaseNames` | logger/logger.go:15-21 | `WARNING` selects Warn and `Text` selects the text handler |

## Left out

- `LoadConfig` (config/config.go:59-86) reads and decodes a YAML file through viper, and the defaults are set by viper calls. That is file I/O and a library that is not part of this model.
- `GetReadTimeout`, `GetWriteTimeout` and `GetIdleTimeout` are not modelled. They only call `time.ParseDuration`.
- `main.go` is not modelled: flag parsing, signal handling, starting the server in a goroutine and shutting it down. This is I/O and concurrency.
- Every slog logging call is dropped, and so is building the slog handler objects. Logging does not affect any response.
- Reading `./index.html` is not modelled as I/O. It becomes a `FileRead` parameter that is either read content or a failure.
- The fasthttp request context is replaced by a `Request` (path and Host) and an `Http.ResponseCtx` (status, content type, headers set with `Header.Set`, body). The method, user agent and remote address are only logged, so they are left out.
- Bodies are strings of characters, not UTF-8 bytes. `İ` is one character here.
- `Strings.Lower`: only ASCII letters are lowercased. Go's `strings.ToLower` also maps non-ASCII letters.
- The wording of `Validate`'s errors is left out. The model keeps the error kind, the port and the 1-based rule index.
- Go's `int` is 64 bits wide. The model uses unbounded integers for the port and the counts, which does not matter at these magnitudes.
- `Redirector.Handler.GetStats` returns the hosts in the order it picks them from the key set. Go's map iteration order is unspecified, so the contract does not fix the order.
