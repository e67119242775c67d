/**
 * The leveled logger: a line is written when logging is enabled and the line's level
 * ranks at or above the configured minimum. The clock reading and the run-time
 * environment flag are parameters; a console call is returned as an `Emission`.
 */
module Logging {
  import opened Options
  import JsValue
  import Text

  datatype Level = Debug | Info | Warn | Error

  /** `LOG_LEVELS`: the rank of each level. */
  function Rank(level: Level): nat
  {
    match level
    case Debug => 0
    case Info => 1
    case Warn => 2
    case Error => 3
  }

  /** The `LOG_LEVELS` table. */
  lemma RankValues()
    ensures Rank(Debug) == 0 && Rank(Info) == 1 && Rank(Warn) == 2 && Rank(Error) == 3
  {
  }

  /** The ranks order the four levels strictly: debug < info < warn < error. */
  lemma RankTotalOrder(a: Level, b: Level)
    ensures Rank(a) == Rank(b) ==> a == b
    ensures Rank(Debug) < Rank(Info) < Rank(Warn) < Rank(Error)
    ensures Rank(Debug) <= Rank(a) <= Rank(Error)
  {
  }

  /** The level's name as written in the source's `LogLevel` union. */
  function Name(level: Level): string
  {
    match level
    case Debug => "debug"
    case Info => "info"
    case Warn => "warn"
    case Error => "error"
  }

  datatype Config = Config(enabled: bool, minLevel: Level)

  /** The constructor's argument: each field may be left out. */
  datatype PartialConfig = PartialConfig(enabled: Option<bool>, minLevel: Option<Level>)

  /** The constructor's defaulting: `enabled` falls back to the development flag, `minLevel` to debug. */
  function ResolveConfig(partial: PartialConfig, isDev: bool): (c: Config)
    ensures partial.enabled.Some? ==> c.enabled == partial.enabled.value
    ensures partial.enabled.None? ==> c.enabled == isDev
    ensures partial.minLevel.Some? ==> c.minLevel == partial.minLevel.value
    ensures partial.minLevel.None? ==> c.minLevel == Debug
  {
    Config(partial.enabled.GetOr(isDev), partial.minLevel.GetOr(Debug))
  }

  /** The four console functions. */
  datatype Channel = ConsoleLog | ConsoleInfo | ConsoleWarn | ConsoleError

  /** One console call: the channel, the formatted line and the extra arguments passed through. */
  datatype Emission = Emission(channel: Channel, line: string, args: seq<JsValue.Value>)

  /** `formatMessage`: `[timestamp] [LEVEL] [tag] message`. */
  function FormatMessage(level: Level, tag: string, message: string, timestamp: string): (line: string)
    ensures |line| == |timestamp| + |Name(level)| + |tag| + |message| + 9
    ensures line[|line| - |message|..] == message
  {
    "[" + timestamp + "] [" + Text.Upper(Name(level)) + "] [" + tag + "] " + message
  }

  /** The upper-case level names. */
  lemma UpperNames()
    ensures Text.Upper(Name(Debug)) == "DEBUG"
    ensures Text.Upper(Name(Info)) == "INFO"
    ensures Text.Upper(Name(Warn)) == "WARN"
    ensures Text.Upper(Name(Error)) == "ERROR"
  {
  }

  /** The level whose upper-case name is `u`. */
  function LevelOfUpper(u: string): (r: Option<Level>)
    ensures r.Some? ==> Text.Upper(Name(r.value)) == u
  {
    UpperNames();
    if u == "DEBUG" then Some(Debug)
    else if u == "INFO" then Some(Info)
    else if u == "WARN" then Some(Warn)
    else if u == "ERROR" then Some(Error)
    else None
  }

  /** The upper-case name of a level reads back as that level and holds no `]`. */
  lemma LevelOfUpperName(level: Level)
    ensures LevelOfUpper(Text.Upper(Name(level))) == Some(level)
    ensures ']' !in Text.Upper(Name(level))
  {
    UpperNames();
    match level
    case Debug =>
    case Info =>
    case Warn =>
    case Error =>
  }

  /** The parts of a formatted line. */
  datatype Entry = Entry(timestamp: string, level: Level, tag: string, message: string)

  /** Splits `[x]rest` into `x` and `rest`, `x` being everything up to the first `]`. */
  function ParseField(s: string): (r: Option<(string, string)>)
    ensures r.Some? ==> s == "[" + r.value.0 + "]" + r.value.1 && ']' !in r.value.0
  {
    if s == [] || s[0] != '[' then None
    else
      match Text.IndexOf(s[1..], ']')
      case None => None
      case Some(i) =>
        assert s == "[" + s[1..][..i] + "]" + s[1..][i + 1..];
        Some((s[1..][..i], s[1..][i + 1..]))
  }

  lemma ParseFieldOf(x: string, rest: string)
    requires ']' !in x
    ensures ParseField("[" + x + "]" + rest) == Some((x, rest))
  {
    var s := "[" + x + "]" + rest;
    assert s[1..] == x + [']'] + rest;
    Text.IndexOfAfter(x, ']', rest);
    assert s[1..][..|x|] == x;
    assert s[1..][|x| + 1..] == rest;
  }

  /** A formatted line is three bracketed fields, each followed by one space, then the message. */
  lemma FormatLayout(level: Level, tag: string, message: string, timestamp: string)
    ensures FormatMessage(level, tag, message, timestamp)
            == "[" + timestamp + "]" + (" " + ("[" + Text.Upper(Name(level)) + "]" + (" " + ("[" + tag + "]" + (" " + message)))))
  {
    var u := Text.Upper(Name(level));
    var line := FormatMessage(level, tag, message, timestamp);
    var right := "[" + timestamp + "]" + (" " + ("[" + u + "]" + (" " + ("[" + tag + "]" + (" " + message)))));
    assert |line| == |right|;
    forall i | 0 <= i < |line| ensures line[i] == right[i] {
    }
  }

  /** Reads a line written by `FormatMessage` back into its parts. */
  function ParseLine(line: string): Option<Entry>
  {
    match ParseField(line)
    case None => None
    case Some(field) => ParseAfterTimestamp(field.0, field.1)
  }

  function ParseAfterTimestamp(timestamp: string, rest: string): Option<Entry>
  {
    if rest == [] || rest[0] != ' ' then None
    else
      match ParseField(rest[1..])
      case None => None
      case Some(field) =>
        match LevelOfUpper(field.0)
        case None => None
        case Some(level) => ParseAfterLevel(timestamp, level, field.1)
  }

  function ParseAfterLevel(timestamp: string, level: Level, rest: string): Option<Entry>
  {
    if rest == [] || rest[0] != ' ' then None
    else
      match ParseField(rest[1..])
      case None => None
      case Some(field) => ParseMessage(timestamp, level, field.0, field.1)
  }

  function ParseMessage(timestamp: string, level: Level, tag: string, rest: string): Option<Entry>
  {
    if rest == [] || rest[0] != ' ' then None else Some(Entry(timestamp, level, tag, rest[1..]))
  }

  lemma ParseMessageOf(timestamp: string, level: Level, tag: string, message: string)
    ensures ParseMessage(timestamp, level, tag, " " + message) == Some(Entry(timestamp, level, tag, message))
  {
    assert (" " + message)[1..] == message;
  }

  lemma ParseAfterLevelOf(timestamp: string, level: Level, tag: string, message: string)
    requires ']' !in tag
    ensures ParseAfterLevel(timestamp, level, " " + ("[" + tag + "]" + (" " + message)))
            == Some(Entry(timestamp, level, tag, message))
  {
    var rest := " " + ("[" + tag + "]" + (" " + message));
    assert rest[1..] == "[" + tag + "]" + (" " + message);
    ParseFieldOf(tag, " " + message);
    ParseMessageOf(timestamp, level, tag, message);
  }

  lemma ParseAfterTimestampOf(timestamp: string, level: Level, tag: string, message: string)
    requires ']' !in tag
    ensures ParseAfterTimestamp(timestamp, " " + ("[" + Text.Upper(Name(level)) + "]" + (" " + ("[" + tag + "]" + (" " + message)))))
            == Some(Entry(timestamp, level, tag, message))
  {
    var u := Text.Upper(Name(level));
    var r2 := " " + ("[" + tag + "]" + (" " + message));
    var rest := " " + ("[" + u + "]" + r2);
    assert rest[1..] == "[" + u + "]" + r2;
    LevelOfUpperName(level);
    ParseFieldOf(u, r2);
    ParseAfterLevelOf(timestamp, level, tag, message);
  }

  /** A formatted line reads back to its parts when neither the timestamp nor the tag holds `]`. */
  lemma FormatParseRoundTrip(level: Level, tag: string, message: string, timestamp: string)
    requires ']' !in timestamp && ']' !in tag
    ensures ParseLine(FormatMessage(level, tag, message, timestamp)) == Some(Entry(timestamp, level, tag, message))
  {
    var u := Text.Upper(Name(level));
    var r1 := " " + ("[" + u + "]" + (" " + ("[" + tag + "]" + (" " + message))));
    FormatLayout(level, tag, message, timestamp);
    ParseFieldOf(timestamp, r1);
    ParseAfterTimestampOf(timestamp, level, tag, message);
  }

  lemma ParseAfterLevelShape(timestamp: string, level: Level, rest: string)
    requires ParseAfterLevel(timestamp, level, rest).Some?
    ensures var e := ParseAfterLevel(timestamp, level, rest).value;
            e.timestamp == timestamp && e.level == level
            && rest == " " + ("[" + e.tag + "]" + (" " + e.message))
  {
    var e := ParseAfterLevel(timestamp, level, rest).value;
    var field := ParseField(rest[1..]).value;
    assert field.1 == " " + e.message;
    assert rest == " " + rest[1..];
  }

  lemma ParseAfterTimestampShape(timestamp: string, rest: string)
    requires ParseAfterTimestamp(timestamp, rest).Some?
    ensures var e := ParseAfterTimestamp(timestamp, rest).value;
            e.timestamp == timestamp
            && rest == " " + ("[" + Text.Upper(Name(e.level)) + "]" + (" " + ("[" + e.tag + "]" + (" " + e.message))))
  {
    var field := ParseField(rest[1..]).value;
    var level := LevelOfUpper(field.0).value;
    ParseAfterLevelShape(timestamp, level, field.1);
    assert rest == " " + rest[1..];
  }

  /** Every line the parser accepts is exactly the formatted line of the parts it returns. */
  lemma ParseFormatRoundTrip(line: string)
    requires ParseLine(line).Some?
    ensures var e := ParseLine(line).value;
            FormatMessage(e.level, e.tag, e.message, e.timestamp) == line
  {
    var e := ParseLine(line).value;
    var field := ParseField(line).value;
    ParseAfterTimestampShape(field.0, field.1);
    FormatLayout(e.level, e.tag, e.message, e.timestamp);
  }

  /** The console function each level writes to. */
  function ChannelOf(level: Level): Channel
  {
    match level
    case Debug => ConsoleLog
    case Info => ConsoleInfo
    case Warn => ConsoleWarn
    case Error => ConsoleError
  }

  class Logger {
    /** Set once by the constructor and never changed. */
    const config: Config

    constructor (partial: PartialConfig, isDev: bool)
      ensures config == ResolveConfig(partial, isDev)
    {
      config := ResolveConfig(partial, isDev);
    }

    /** `shouldLog(level)`. */
    predicate ShouldLog(level: Level)
    {
      config.enabled && Rank(level) >= Rank(config.minLevel)
    }

    /** `debug(tag, message, ...args)`. */
    method Debug(tag: string, message: string, args: seq<JsValue.Value>, timestamp: string)
      returns (out: Option<Emission>)
      ensures out.Some? <==> ShouldLog(Level.Debug)
      ensures out.Some? ==> out.value == Emission(ConsoleLog, FormatMessage(Level.Debug, tag, message, timestamp), args)
    {
      if ShouldLog(Level.Debug) {
        out := Some(Emission(ChannelOf(Level.Debug), FormatMessage(Level.Debug, tag, message, timestamp), args));
      } else {
        out := None;
      }
    }

    /** `info(tag, message, ...args)`. */
    method Info(tag: string, message: string, args: seq<JsValue.Value>, timestamp: string)
      returns (out: Option<Emission>)
      ensures out.Some? <==> ShouldLog(Level.Info)
      ensures out.Some? ==> out.value == Emission(ConsoleInfo, FormatMessage(Level.Info, tag, message, timestamp), args)
    {
      if ShouldLog(Level.Info) {
        out := Some(Emission(ChannelOf(Level.Info), FormatMessage(Level.Info, tag, message, timestamp), args));
      } else {
        out := None;
      }
    }

    /** `warn(tag, message, ...args)`. */
    method Warn(tag: string, message: string, args: seq<JsValue.Value>, timestamp: string)
      returns (out: Option<Emission>)
      ensures out.Some? <==> ShouldLog(Level.Warn)
      ensures out.Some? ==> out.value == Emission(ConsoleWarn, FormatMessage(Level.Warn, tag, message, timestamp), args)
    {
      if ShouldLog(Level.Warn) {
        out := Some(Emission(ChannelOf(Level.Warn), FormatMessage(Level.Warn, tag, message, timestamp), args));
      } else {
        out := None;
      }
    }

    /** `error(tag, message, ...args)`. */
    method Error(tag: string, message: string, args: seq<JsValue.Value>, timestamp: string)
      returns (out: Option<Emission>)
      ensures out.Some? <==> ShouldLog(Level.Error)
      ensures out.Some? ==> out.value == Emission(ConsoleError, FormatMessage(Level.Error, tag, message, timestamp), args)
    {
      if ShouldLog(Level.Error) {
        out := Some(Emission(ChannelOf(Level.Error), FormatMessage(Level.Error, tag, message, timestamp), args));
      } else {
        out := None;
      }
    }
  }

  /** `shouldLog(level)` holds iff logging is enabled and the level ranks at or above the minimum. */
  lemma ShouldLogIff(l: Logger, level: Level)
    ensures l.ShouldLog(level) <==> l.config.enabled && Rank(level) >= Rank(l.config.minLevel)
  {
  }

  /** A disabled logger writes nothing at any level. */
  lemma DisabledLogsNothing(l: Logger, level: Level)
    requires !l.config.enabled
    ensures !l.ShouldLog(level)
  {
  }

  /** Filtering is monotone: a level that passes lets every higher-ranked level pass. */
  lemma ShouldLogMonotone(l: Logger, a: Level, b: Level)
    requires l.ShouldLog(a) && Rank(a) <= Rank(b)
    ensures l.ShouldLog(b)
  {
  }

  /** An enabled logger always writes errors, and writes a level exactly when it ranks at or above the minimum. */
  lemma EnabledThreshold(l: Logger, level: Level)
    requires l.config.enabled
    ensures l.ShouldLog(Level.Error)
    ensures l.ShouldLog(level) <==> Rank(level) >= Rank(l.config.minLevel)
  {
  }

  /** With the default minimum, an enabled logger writes every level; `enabled` defaults to the development flag. */
  lemma DefaultsPassEverything(l: Logger, isDev: bool, level: Level)
    requires l.config == ResolveConfig(PartialConfig(None, None), isDev)
    ensures l.ShouldLog(level) <==> isDev
  {
  }
}
