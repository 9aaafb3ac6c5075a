/**
 * The choices `NewLogger` makes from the logging configuration: the
 * minimum level and the kind of handler (JSON or text). The slog objects
 * themselves are not modelled.
 */
module Logger {
  import opened Strings
  import opened Config

  /** slog's four standard levels. */
  datatype Level = Debug | Info | Warn | Error

  /** The slog handler `NewLogger` constructs. */
  datatype HandlerKind = JsonHandler | TextHandler

  /** What `NewLogger` hands to slog: the handler kind and the level placed
      in its options. */
  datatype HandlerSetup = HandlerSetup(kind: HandlerKind, level: Level)

  /** The level switch, on the lower-cased configured name; an unknown or
      empty name falls back to `Info`. */
  function SelectLevel(name: string): (l: Level)
    ensures l == Debug <==> Lower(name) == "debug"
    ensures l == Warn <==> Lower(name) == "warn" || Lower(name) == "warning"
    ensures l == Error <==> Lower(name) == "error"
    ensures l == Info <==> Lower(name) !in {"debug", "warn", "warning", "error"}
  {
    match Lower(name)
    case "debug" => Debug
    case "info" => Info
    case "warn" => Warn
    case "warning" => Warn
    case "error" => Error
    case _ => Info
  }

  /** The format switch, on the lower-cased configured name: "text" picks
      the text handler, "json" and anything else the JSON handler. */
  function SelectFormat(name: string): (k: HandlerKind)
    ensures k == TextHandler <==> Lower(name) == "text"
  {
    match Lower(name)
    case "json" => JsonHandler
    case "text" => TextHandler
    case _ => JsonHandler
  }

  /** `NewLogger` without the slog objects: the handler is the one the
      format switch picks, and its options carry the level the level switch
      picks. */
  function NewLogger(cfg: LoggingConfig): (h: HandlerSetup)
    ensures h.kind == SelectFormat(cfg.format)
    ensures h.level == SelectLevel(cfg.level)
    ensures h.kind == TextHandler <==> Lower(cfg.format) == "text"
    ensures h.level == Debug <==> Lower(cfg.level) == "debug"
    ensures h.level == Warn <==> Lower(cfg.level) == "warn" || Lower(cfg.level) == "warning"
    ensures h.level == Error <==> Lower(cfg.level) == "error"
    ensures h.level == Info <==> Lower(cfg.level) !in {"debug", "warn", "warning", "error"}
  {
    HandlerSetup(SelectFormat(cfg.format), SelectLevel(cfg.level))
  }

  /** The level placed in the handler options does not depend on the
      format that was chosen. */
  lemma LevelIndependentOfFormat(a: LoggingConfig, b: LoggingConfig)
    requires a.level == b.level
    ensures NewLogger(a).level == NewLogger(b).level
  {
  }

  /** Both switches ignore letter case: a name and its lower-cased form
      select the same thing. */
  lemma SelectionIgnoresCase(name: string)
    ensures SelectLevel(Lower(name)) == SelectLevel(name)
    ensures SelectFormat(Lower(name)) == SelectFormat(name)
  {
    LowerIdempotent(name);
  }

  /** "WARNING", in capitals, selects `Warn`; "Text" selects the text
      handler. */
  lemma MixedCaseNames()
    ensures SelectLevel("WARNING") == Warn
    ensures SelectFormat("Text") == TextHandler
  {
    assert Lower("WARNING") == "warning";
    assert Lower("Text") == "text";
  }
}
