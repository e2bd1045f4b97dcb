/**
 * The frontend logger registry (frontend/src/lib/logging.ts): one logger per
 * module name, cached in a module-level map, each emitting only at or above
 * the configured level with a "<timestamp> [<module>]" prefix. The clock is a
 * parameter and the console is a sink that records what reaches it.
 */
module Logging {
  import opened Wrappers

  datatype Level = Debug | Info | Warn | Error

  /** `LogLevel`: the numbers the levels are compared by. */
  function LevelValue(l: Level): (n: int)
    ensures 1 <= n <= 4
    ensures l == Debug ==> n == 1
    ensures l == Error ==> n == 4
  {
    match l
    case Debug => 1
    case Info => 2
    case Warn => 3
    case Error => 4
  }

  /** The level names the configuration schema admits. */
  predicate IsLevelName(name: string) {
    name == "debug" || name == "info" || name == "warn" || name == "error"
  }

  /** `LogLevelNameToInt[name]` for one of the configuration's level names. */
  function LevelFromName(name: string): (l: Level)
    requires IsLevelName(name)
    ensures name == "debug" <==> l == Debug
    ensures name == "info" <==> l == Info
    ensures name == "warn" <==> l == Warn
    ensures name == "error" <==> l == Error
  {
    if name == "debug" then Debug
    else if name == "info" then Info
    else if name == "warn" then Warn
    else Error
  }

  /**
   * The configuration after `RuntimeConfigSchema.parse`: only the schema's
   * keys survive, and `LOG_LEVEL` has been trimmed, lower-cased and checked
   * against the four level names.
   */
  datatype AppConfig = AppConfig(apiBaseUrl: string, logLevel: string)

  predicate ValidConfig(c: AppConfig) {
    c.apiBaseUrl != "" && IsLevelName(c.logLevel)
  }

  /** `appConfig[prop]`: the parsed value of a schema key; any other property is `undefined`. */
  function ConfigValue(c: AppConfig, prop: string): (v: Option<string>)
    ensures v.Some? <==> prop == "API_BASE_URL" || prop == "LOG_LEVEL"
    ensures prop == "LOG_LEVEL" ==> v == Some(c.logLevel)
  {
    if prop == "API_BASE_URL" then Some(c.apiBaseUrl)
    else if prop == "LOG_LEVEL" then Some(c.logLevel)
    else None
  }

  /**
   * `LogLevelNameToInt[appConfig[prop]]`: the threshold read from property
   * `prop` of the configuration, `None` standing for `undefined`.
   */
  function ThresholdFrom(c: AppConfig, prop: string): (t: Option<Level>)
    requires ValidConfig(c)
    ensures t.Some? <==> (prop == "API_BASE_URL" && IsLevelName(c.apiBaseUrl)) || prop == "LOG_LEVEL"
    ensures prop == "LOG_LEVEL" ==> t == Some(LevelFromName(c.logLevel))
  {
    match ConfigValue(c, prop)
    case Some(name) => if IsLevelName(name) then Some(LevelFromName(name)) else None
    case None => None
  }

  /** `logLevel <= LogLevel.<L>`: any comparison with an `undefined` threshold is false. */
  predicate EmitsAt(threshold: Option<Level>, message: Level) {
    threshold.Some? && Emits(threshold.value, message)
  }

  /**
   * As written, the threshold is read from `appConfig.logLevel`, a property
   * the parsed configuration never has, so no message at any level reaches
   * the console.
   */
  lemma NothingLoggedAsWritten(c: AppConfig, message: Level)
    requires ValidConfig(c)
    ensures ThresholdFrom(c, "logLevel") == None
    ensures !EmitsAt(ThresholdFrom(c, "logLevel"), message)
  {
  }

  /**
   * Read from `LOG_LEVEL`, the threshold is the configured level: errors are
   * always logged, and a message is logged exactly when its level is at
   * least the configured one.
   */
  lemma ConfiguredThreshold(c: AppConfig, message: Level)
    requires ValidConfig(c)
    ensures EmitsAt(ThresholdFrom(c, "LOG_LEVEL"), Error)
    ensures EmitsAt(ThresholdFrom(c, "LOG_LEVEL"), message)
      <==> LevelValue(LevelFromName(c.logLevel)) <= LevelValue(message)
  {
  }

  /** `logLevel <= LogLevel.<L>`: whether a message at `message` reaches the console under the level `configured`. */
  predicate Emits(configured: Level, message: Level) {
    LevelValue(configured) <= LevelValue(message)
  }

  /**
   * Errors always reach the console, everything does under `Debug`, and
   * a message at a level reaches it exactly when every higher level would.
   */
  lemma EmitsMonotone(configured: Level, message: Level, higher: Level)
    ensures Emits(configured, Error) && Emits(Debug, message)
    ensures Emits(configured, message) && LevelValue(message) <= LevelValue(higher) ==> Emits(configured, higher)
    ensures Emits(configured, message) <==> !(LevelValue(message) < LevelValue(configured))
    ensures Emits(configured, message) && Emits(message, configured) ==> configured == message
  {
  }

  /** `${timeStamp} [${moduleName}]` */
  function Prefix(timeStamp: string, moduleName: string): (p: string)
    ensures |p| == |timeStamp| + |moduleName| + 3
  {
    timeStamp + " [" + moduleName + "]"
  }

  /** The prefix starts with the timestamp, and the module name sits between the brackets after it. */
  lemma PrefixParts(timeStamp: string, moduleName: string)
    ensures Prefix(timeStamp, moduleName)[..|timeStamp|] == timeStamp
    ensures Prefix(timeStamp, moduleName)[|timeStamp|..] == " [" + moduleName + "]"
    ensures Prefix(timeStamp, moduleName)[|timeStamp| + 2..|timeStamp| + 2 + |moduleName|] == moduleName
  {
    var p := Prefix(timeStamp, moduleName);
    assert p == timeStamp + (" [" + moduleName + "]");
    assert p[|timeStamp|..] == " [" + moduleName + "]";
    assert (" [" + moduleName + "]")[2..2 + |moduleName|] == moduleName;
  }

  /** Two prefixes with timestamps of one length are equal only for the same timestamp and module. */
  lemma PrefixInjective(t1: string, m1: string, t2: string, m2: string)
    requires |t1| == |t2| && Prefix(t1, m1) == Prefix(t2, m2)
    ensures t1 == t2 && m1 == m2
  {
    PrefixParts(t1, m1);
    PrefixParts(t2, m2);
  }

  /** One call that reached the console: the console method's level, the prefix and the data. */
  datatype Entry = Entry(level: Level, prefix: string, data: seq<string>)

  /** The console, recording what reaches it in order. */
  class Console {
    var entries: seq<Entry>

    constructor ()
      ensures entries == []
    {
      entries := [];
    }
  }

  /** The object `createLogger(moduleName)` returns, with the level configured when it was created. */
  class Logger {
    const moduleName: string
    const level: Level

    constructor (moduleName: string, level: Level)
      ensures this.moduleName == moduleName && this.level == level
    {
      this.moduleName := moduleName;
      this.level := level;
    }

    /**
     * `logger.debug/info/warn/error(...data)` at `message`: the call reaches
     * the console, prefixed with the current time and the module name, iff the
     * configured level allows it; otherwise the console is left alone.
     */
    method Log(console: Console, message: Level, timeStamp: string, data: seq<string>)
      modifies console
      ensures Emits(level, message) ==> console.entries == old(console.entries) + [Entry(message, Prefix(timeStamp, moduleName), data)]
      ensures !Emits(level, message) ==> console.entries == old(console.entries)
    {
      if LevelValue(level) <= LevelValue(message) {
        console.entries := console.entries + [Entry(message, Prefix(timeStamp, moduleName), data)];
      }
    }
  }

  /** The module-level `loggers` map together with the threshold, the level configured under `LOG_LEVEL`. */
  class Registry {
    const level: Level
    var loggers: map<string, Logger>

    /** Every cached logger belongs to the name it is cached under and uses the configured level. */
    predicate Valid()
      reads this, loggers.Values
    {
      forall name | name in loggers :: loggers[name].moduleName == name && loggers[name].level == level
    }

    constructor (level: Level)
      ensures this.level == level && loggers == map[] && Valid()
    {
      this.level := level;
      loggers := map[];
    }

    /**
     * `getLogger(moduleName)`: the cached logger when there is one; otherwise a
     * fresh logger for that name, which is cached. The cache only grows, and
     * no entry is ever replaced.
     */
    method GetLogger(moduleName: string) returns (logger: Logger)
      requires Valid()
      modifies this`loggers
      ensures Valid()
      ensures logger.moduleName == moduleName && logger.level == level
      ensures moduleName in old(loggers) ==> logger == old(loggers)[moduleName] && loggers == old(loggers)
      ensures moduleName !in old(loggers) ==> fresh(logger) && loggers == old(loggers)[moduleName := logger]
      ensures loggers.Keys == old(loggers).Keys + {moduleName}
      ensures forall name | name in old(loggers) :: loggers[name] == old(loggers)[name]
    {
      if moduleName in loggers {
        return loggers[moduleName];
      }
      logger := new Logger(moduleName, level);
      loggers := loggers[moduleName := logger];
    }

    /** Different module names are cached with different logger instances. */
    lemma DistinctNamesDistinctLoggers(a: string, b: string)
      requires Valid() && a in loggers && b in loggers && a != b
      ensures loggers[a] != loggers[b]
    {
      assert loggers[a].moduleName == a && loggers[b].moduleName == b;
    }
  }
}
