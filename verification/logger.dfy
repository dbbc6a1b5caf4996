/** The client's logger: a level filter in front of a message formatter,
    feeding the host console and the `OnLogMessage` event.  The global
    switches (`CurrentLogLevel`, `IncludeTimestamps`, `IncludeLogLevel`) are
    passed in as `Settings`; the wall-clock timestamp is passed in already
    rendered. */
module Logger {
  import opened Wrappers
  import Text

  datatype LogLevel = Debug | Info | Warning | Error

  /** The enum's underlying value; the filter compares these. */
  function Rank(level: LogLevel): nat {
    match level
    case Debug => 0
    case Info => 1
    case Warning => 2
    case Error => 3
  }

  /** The enum member's name, as `$"{level}"` prints it. */
  function Name(level: LogLevel): string {
    match level
    case Debug => "Debug"
    case Info => "Info"
    case Warning => "Warning"
    case Error => "Error"
  }

  datatype Settings = Settings(currentLevel: LogLevel, includeTimestamps: bool, includeLogLevel: bool)

  /** The static initial values of the three switches. */
  const DefaultSettings := Settings(Info, true, true)

  /** Which host console call a message goes to. */
  datatype Console = ConsoleLog | ConsoleWarning | ConsoleError

  /** What one emitted message produces: the console call with its line, and
      the `OnLogMessage(level, formatted)` event. */
  datatype Emission = Emission(console: Console, consoleLine: string, level: LogLevel, formatted: string)

  /** `string.Join(sep, parts)`. */
  function Join(sep: string, parts: seq<string>): string
    decreases |parts|
  {
    if |parts| == 0 then ""
    else if |parts| == 1 then parts[0]
    else parts[0] + sep + Join(sep, parts[1..])
  }

  /** The parts `FormatMessage` collects, in order. */
  function Parts(settings: Settings, level: LogLevel, message: string, context: Option<string>, stamp: string): seq<string> {
    (if settings.includeTimestamps then ["[" + stamp + "]"] else [])
    + (if settings.includeLogLevel then ["[" + Name(level) + "]"] else [])
    + [message]
    + (if context.Some? then ["Context: " + context.value] else [])
  }

  function FormatMessage(settings: Settings, level: LogLevel, message: string, context: Option<string>, stamp: string): string {
    Join(" ", Parts(settings, level, message, context, stamp))
  }

  /** Joining a head onto a non-empty tail puts exactly one separator between them. */
  lemma JoinCons(sep: string, head: string, tail: seq<string>)
    ensures Join(sep, [head] + tail) == if |tail| == 0 then head else head + sep + Join(sep, tail)
  {
    assert ([head] + tail)[1..] == tail;
  }

  lemma ConcatAssoc(a: string, b: string, c: string, d: string)
    ensures a + (b + (c + d)) == a + b + c + d
  {
  }

  /** An optional leading part is followed by exactly one separator. */
  lemma JoinOptionalHead(sep: string, head: seq<string>, rest: seq<string>)
    requires |head| <= 1 && |rest| > 0
    ensures Join(sep, head + rest) == (if |head| == 1 then head[0] + sep else "") + Join(sep, rest)
  {
    if |head| == 1 {
      assert head + rest == [head[0]] + rest;
      JoinCons(sep, head[0], rest);
    } else {
      assert head + rest == rest;
    }
  }

  /** The formatted message spelled out: optional "[stamp] ", optional
      "[Level] ", the message, optional " Context: ctx" - single spaces
      between the parts and nowhere else. */
  lemma {:induction false} FormatMessageLayout(settings: Settings, level: LogLevel, message: string, context: Option<string>, stamp: string)
    ensures FormatMessage(settings, level, message, context, stamp)
         == (if settings.includeTimestamps then "[" + stamp + "] " else "")
          + (if settings.includeLogLevel then "[" + Name(level) + "] " else "")
          + message
          + (if context.Some? then " Context: " + context.value else "")
  {
    var stampPart: seq<string> := if settings.includeTimestamps then ["[" + stamp + "]"] else [];
    var levelPart: seq<string> := if settings.includeLogLevel then ["[" + Name(level) + "]"] else [];
    var ctxPart: seq<string> := if context.Some? then ["Context: " + context.value] else [];
    var stampText := if settings.includeTimestamps then "[" + stamp + "] " else "";
    var levelText := if settings.includeLogLevel then "[" + Name(level) + "] " else "";
    var ctxText := if context.Some? then " Context: " + context.value else "";

    var rest := [message] + ctxPart;
    JoinCons(" ", message, ctxPart);
    assert Join(" ", rest) == message + ctxText;
    var withLevel := levelPart + rest;
    JoinOptionalHead(" ", levelPart, rest);
    assert Join(" ", withLevel) == levelText + (message + ctxText);
    var all := stampPart + withLevel;
    JoinOptionalHead(" ", stampPart, withLevel);
    assert Join(" ", all) == stampText + (levelText + (message + ctxText));
    assert Parts(settings, level, message, context, stamp) == all;
    ConcatAssoc(stampText, levelText, message, ctxText);
  }

  /** With the level switch on, a warning carries the "[Warning]" tag. */
  lemma WarningTagPresent(settings: Settings, message: string, context: Option<string>, stamp: string)
    requires settings.includeLogLevel
    ensures Text.Contains(FormatMessage(settings, Warning, message, context, stamp), "[Warning]")
  {
    FormatMessageLayout(settings, Warning, message, context, stamp);
    var pre := if settings.includeTimestamps then "[" + stamp + "] " else "";
    var f := FormatMessage(settings, Warning, message, context, stamp);
    assert f == pre + "[Warning] " + message + (if context.Some? then " Context: " + context.value else "");
    assert f[|pre|..|pre| + 9] == "[Warning]";
    assert Text.OccursAt(f, "[Warning]", |pre|);
  }

  /** `Log(level, message, context)`: dropped below the current level,
      otherwise formatted once and sent to the console and the event. */
  function Log(settings: Settings, level: LogLevel, message: string, context: Option<string>, stamp: string): (r: Option<Emission>)
    ensures r.Some? <==> Rank(level) >= Rank(settings.currentLevel)
    ensures r.Some? ==> (r.value.level == level
                         && r.value.formatted == FormatMessage(settings, level, message, context, stamp))
    ensures r.Some? && level == Debug ==> r.value.consoleLine == "[QuantumLeap Debug] " + r.value.formatted
    ensures r.Some? && level != Debug ==> r.value.consoleLine == "[QuantumLeap] " + r.value.formatted
  {
    if Rank(level) < Rank(settings.currentLevel) then None
    else
      var formatted := FormatMessage(settings, level, message, context, stamp);
      Some(match level
           case Debug => Emission(ConsoleLog, "[QuantumLeap Debug] " + formatted, level, formatted)
           case Info => Emission(ConsoleLog, "[QuantumLeap] " + formatted, level, formatted)
           case Warning => Emission(ConsoleWarning, "[QuantumLeap] " + formatted, level, formatted)
           case Error => Emission(ConsoleError, "[QuantumLeap] " + formatted, level, formatted))
  }

  /** `LogDebug`: emitted only when the current level is Debug. */
  function LogDebug(settings: Settings, message: string, context: Option<string>, stamp: string): (r: Option<Emission>)
    ensures r.Some? <==> settings.currentLevel == Debug
    ensures r.Some? ==> r.value.level == Debug && r.value.console == ConsoleLog
  {
    Log(settings, Debug, message, context, stamp)
  }

  /** `Log(message)`: Info level; suppressed only when the current level is above Info. */
  function LogInfo(settings: Settings, message: string, context: Option<string>, stamp: string): (r: Option<Emission>)
    ensures r.Some? <==> settings.currentLevel in {Debug, Info}
    ensures r.Some? ==> r.value.level == Info && r.value.console == ConsoleLog
  {
    Log(settings, Info, message, context, stamp)
  }

  /** `LogWarning`: suppressed only when the current level is Error. */
  function LogWarning(settings: Settings, message: string, context: Option<string>, stamp: string): (r: Option<Emission>)
    ensures r.Some? <==> settings.currentLevel != Error
    ensures r.Some? ==> r.value.level == Warning && r.value.console == ConsoleWarning
  {
    Log(settings, Warning, message, context, stamp)
  }

  /** `LogError`: Error is the top level, so it always passes the filter. */
  function LogError(settings: Settings, message: string, context: Option<string>, stamp: string): (r: Option<Emission>)
    ensures r.Some? && r.value.level == Error && r.value.console == ConsoleError
    ensures r.value.formatted == FormatMessage(settings, Error, message, context, stamp)
  {
    Log(settings, Error, message, context, stamp)
  }
}
