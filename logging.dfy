/**
 * The logger: five ordered levels, a class-wide threshold read from a JSON
 * configuration, and `write_*` operations that pass a message on to the log sink only
 * when the threshold is at or below the message's level.
 */
module Logging {

  /** `LoggerLevel`. */
  datatype Level = Debug | Info | Warning | Error | Critical {
    /** The numeric value the threshold is compared with. */
    function Value(): (v: int)
      ensures v == 10 * (Rank() + 1)
    {
      match this
      case Debug => 10
      case Info => 20
      case Warning => 30
      case Error => 40
      case Critical => 50
    }

    /** Position in declaration order. */
    function Rank(): nat
    {
      match this
      case Debug => 0
      case Info => 1
      case Warning => 2
      case Error => 3
      case Critical => 4
    }
  }

  /** A message handed to the log sink, with the level it was written at. */
  datatype Record = Record(level: Level, message: string)

  /** `write_X` passes its message on exactly when `debug_level <= X`. */
  predicate Emits(threshold: int, level: Level)
    ensures threshold <= Debug.Value() ==> Emits(threshold, level)
    ensures threshold > Critical.Value() ==> !Emits(threshold, level)
  {
    threshold <= level.Value()
  }

  /** The records that a logger at `threshold` passes on, in order. */
  function Filter(threshold: int, records: seq<Record>): (kept: seq<Record>)
    ensures |kept| <= |records|
  {
    if records == [] then []
    else
      var rest := Filter(threshold, records[1..]);
      assert records == [records[0]] + records[1..];
      if Emits(threshold, records[0].level) then [records[0]] + rest else rest
  }

  /** A record is passed on exactly when it was written at a level the threshold lets through. */
  lemma {:induction false} FilterKeepsExactlyEmitted(threshold: int, records: seq<Record>, r: Record)
    ensures r in Filter(threshold, records) <==> r in records && Emits(threshold, r.level)
  {
    if records != [] {
      FilterKeepsExactlyEmitted(threshold, records[1..], r);
      assert records == [records[0]] + records[1..];
    }
  }

  /** Filtering distributes over concatenation: writes may be split anywhere. */
  lemma {:induction false} FilterAppend(threshold: int, a: seq<Record>, b: seq<Record>)
    ensures Filter(threshold, a + b) == Filter(threshold, a) + Filter(threshold, b)
  {
    if a != [] {
      assert (a + b)[1..] == a[1..] + b;
      FilterAppend(threshold, a[1..], b);
    } else {
      assert a + b == b;
    }
  }

  /** The level values follow the declaration order strictly: 10 < 20 < 30 < 40 < 50. */
  lemma LevelsStrictlyOrdered(a: Level, b: Level)
    ensures a.Rank() < b.Rank() <==> a.Value() < b.Value()
    ensures a.Value() == 10 * (a.Rank() + 1)
  {
  }

  /** A threshold that lets a level through lets every higher level through. */
  lemma EmitsMonotone(threshold: int, low: Level, high: Level)
    requires low.Value() <= high.Value()
    ensures Emits(threshold, low) ==> Emits(threshold, high)
  {
  }

  /** Above CRITICAL nothing is written; at or below DEBUG everything is. */
  lemma {:induction false} FilterExtremes(threshold: int, records: seq<Record>)
    ensures threshold > Critical.Value() ==> Filter(threshold, records) == []
    ensures threshold <= Debug.Value() ==> Filter(threshold, records) == records
  {
    if records != [] {
      FilterExtremes(threshold, records[1..]);
      assert records == [records[0]] + records[1..];
    }
  }

  /** A decoded JSON value. */
  datatype Json =
    | JInt(i: int)
    | JBool(b: bool)
    | JString(s: string)
    | JObject(fields: map<string, Json>)
    | JOther                              // null, floats and arrays

  /** What opening and decoding the configuration file gives. */
  datatype ConfigSource =
    | FileMissing                         // FileNotFoundError
    | NotJson                             // json.JSONDecodeError
    | Unreadable                          // any other error of open or read: not caught
    | Decoded(document: Json)

  datatype Settings = Settings(debugLevel: int, logFilePath: string)

  datatype LoadOutcome =
    | Loaded(settings: Settings)
    | Raised                              // an exception leaves load_configuration
    | Unsupported                         // a setting of a JSON type the model does not follow

  const DefaultLevel: int := 10
  const DefaultLogFilePath: string := "./logs/logFile.log"

  /** `d.get(key, default)`. */
  function Get(fields: map<string, Json>, key: string, default: Json): Json
  {
    if key in fields then fields[key] else default
  }

  /** What `load_configuration` makes of a configuration source. */
  function ReadConfiguration(source: ConfigSource): (outcome: LoadOutcome)
    ensures outcome.Raised? ==> source.Unreadable? || source.Decoded?
    ensures outcome.Unsupported? ==> source.Decoded?
    ensures source.Unreadable? ==> outcome.Raised?
    ensures source.Decoded? && !source.document.JObject? ==> outcome.Raised?
    ensures (source.Decoded? && source.document.JObject? && "debugConfig" in source.document.fields
             && !source.document.fields["debugConfig"].JObject?) ==> outcome.Raised?
  {
    match source
    case FileMissing => Loaded(Settings(DefaultLevel, DefaultLogFilePath))
    case NotJson => Loaded(Settings(DefaultLevel, DefaultLogFilePath))
    case Unreadable => Raised
    case Decoded(document) =>
      // config.get(...) and debug_config.get(...) raise AttributeError on a non-object
      if !document.JObject? then Raised
      else
        var section := Get(document.fields, "debugConfig", JObject(map[]));
        if !section.JObject? then Raised
        else
          var level := Get(section.fields, "debugLevel", JInt(DefaultLevel));
          var path := Get(section.fields, "logFilePath", JString(DefaultLogFilePath));
          match (level, path)
          case (JInt(n), JString(p)) => Loaded(Settings(n, p))
          case (JBool(b), JString(p)) => Loaded(Settings(if b then 1 else 0, p))
          case _ => Unsupported
  }

  /** A file that cannot be found or decoded gives the defaults, 10 and ./logs/logFile.log. */
  lemma ReadErrorsGiveDefaults(source: ConfigSource)
    requires source.FileMissing? || source.NotJson?
    ensures ReadConfiguration(source) == Loaded(Settings(10, "./logs/logFile.log"))
  {
  }

  /** Each missing key falls back to its own default, independently of the other. */
  lemma MissingKeysGiveDefaults(fields: map<string, Json>)
    ensures "debugConfig" !in fields ==>
      ReadConfiguration(Decoded(JObject(fields))) == Loaded(Settings(10, "./logs/logFile.log"))
    ensures "debugConfig" in fields && fields["debugConfig"].JObject? ==>
      var section := fields["debugConfig"].fields;
      && ("debugLevel" !in section && "logFilePath" !in section ==>
            ReadConfiguration(Decoded(JObject(fields))) == Loaded(Settings(10, "./logs/logFile.log")))
      && ("debugLevel" !in section && "logFilePath" in section && section["logFilePath"].JString? ==>
            ReadConfiguration(Decoded(JObject(fields))) == Loaded(Settings(10, section["logFilePath"].s)))
      && ("logFilePath" !in section && "debugLevel" in section && section["debugLevel"].JInt? ==>
            ReadConfiguration(Decoded(JObject(fields))) == Loaded(Settings(section["debugLevel"].i, "./logs/logFile.log")))
      && ("logFilePath" !in section && "debugLevel" in section && section["debugLevel"].JBool? ==>
            ReadConfiguration(Decoded(JObject(fields)))
            == Loaded(Settings(if section["debugLevel"].b then 1 else 0, "./logs/logFile.log")))
  {
  }

  /** A section that sets both keys is taken as it stands; a boolean level counts as 0 or 1. */
  lemma ConfiguredSettingsAreLoaded(fields: map<string, Json>, section: map<string, Json>, path: string)
    requires "debugConfig" in fields && fields["debugConfig"] == JObject(section)
    requires "debugLevel" in section && "logFilePath" in section && section["logFilePath"] == JString(path)
    ensures section["debugLevel"].JInt? ==>
      ReadConfiguration(Decoded(JObject(fields))) == Loaded(Settings(section["debugLevel"].i, path))
    ensures section["debugLevel"].JBool? ==>
      ReadConfiguration(Decoded(JObject(fields))) == Loaded(Settings(if section["debugLevel"].b then 1 else 0, path))
    ensures !section["debugLevel"].JInt? && !section["debugLevel"].JBool? ==>
      ReadConfiguration(Decoded(JObject(fields))).Unsupported?
  {
  }

  /** Concatenation regroups freely; stated once so that chains of writes compose cheaply. */
  lemma Regroup<T>(a: seq<T>, b: seq<T>, c: seq<T>)
    ensures (a + b) + c == a + (b + c)
  {
  }

  /**
   * The class-wide configuration (`Logger.debug_level`, `Logger.log_file_path`) together
   * with the log sink every instance writes to.
   */
  class Logger {
    var debugLevel: int
    var logFilePath: string
    /** Every record passed on to the sink, in order. */
    var records: seq<Record>
    /** Every record handed to a `write_*` call, passed on or not. */
    ghost var written: seq<Record>
    /** The sink as it stood when the configuration was last loaded... */
    ghost var shown: seq<Record>
    /** ...and how many records had been written by then. */
    ghost var since: nat

    /**
     * The sink is what it held when the configuration was last loaded, followed by the
     * records written since then that pass the current threshold.
     */
    ghost predicate Valid()
      reads this
    {
      since <= |written| && records == shown + Filter(debugLevel, written[since..])
    }

    /** The class attributes as declared, before any configuration is loaded. */
    constructor ()
      ensures Valid()
      ensures debugLevel == 10 && logFilePath == "logFile.log" && records == [] && written == []
    {
      debugLevel := Debug.Value();
      logFilePath := "logFile.log";
      records := [];
      written, shown, since := [], [], 0;
    }

    /**
     * Between the caller's entry state and now, the configuration stayed as it was and
     * exactly `messages` were written.
     */
    twostate predicate Logged(messages: seq<Record>)
      reads this
    {
      && debugLevel == old(debugLevel)
      && logFilePath == old(logFilePath)
      && shown == old(shown)
      && since == old(since)
      && written == old(written) + messages
    }

    /** What was written under an unchanged configuration reached the sink filtered by its threshold. */
    twostate lemma SinkReceived(messages: seq<Record>)
      requires old(Valid()) && Valid() && Logged(messages)
      ensures records == old(records) + Filter(old(debugLevel), messages)
    {
      assert written[since..] == old(written)[since..] + messages;
      FilterAppend(debugLevel, old(written)[since..], messages);
    }

    /**
     * `load_configuration`; true if an exception escaped it. The sink keeps what it
     * holds, and what is written from now on is filtered by the new threshold.
     */
    method LoadConfiguration(source: ConfigSource) returns (raised: bool)
      requires Valid()
      modifies this
      ensures Valid()
      ensures records == old(records) && written == old(written)
      ensures raised <==> ReadConfiguration(source).Raised?
      ensures match ReadConfiguration(source)
        case Loaded(settings) => debugLevel == settings.debugLevel && logFilePath == settings.logFilePath
        case Raised => debugLevel == old(debugLevel) && logFilePath == old(logFilePath)
        case Unsupported => true
    {
      raised := false;
      match ReadConfiguration(source) {
        case Loaded(settings) =>
          debugLevel := settings.debugLevel;
          logFilePath := settings.logFilePath;
        case Raised =>
          raised := true;
        case Unsupported =>
      }
      shown, since := records, |written|;
      assert written[since..] == [];
    }

    /** The body shared by the five `write_*` methods. */
    method Write(level: Level, message: string)
      requires Valid()
      modifies this
      ensures Valid() && Logged([Record(level, message)])
      ensures records == old(records) + if Emits(debugLevel, level) then [Record(level, message)] else []
    {
      written := written + [Record(level, message)];
      if debugLevel <= level.Value() {
        records := records + [Record(level, message)];
      }
      assert written[since..] == old(written)[since..] + [Record(level, message)];
      FilterAppend(debugLevel, old(written)[since..], [Record(level, message)]);
      assert Filter(debugLevel, [Record(level, message)])
        == if Emits(debugLevel, level) then [Record(level, message)] else [];
    }

    method WriteDebug(message: string)
      requires Valid()
      modifies this
      ensures Valid() && Logged([Record(Debug, message)])
      ensures records == old(records) + if debugLevel <= Debug.Value() then [Record(Debug, message)] else []
    {
      Write(Debug, message);
    }

    method WriteInfo(message: string)
      requires Valid()
      modifies this
      ensures Valid() && Logged([Record(Info, message)])
      ensures records == old(records) + if debugLevel <= Info.Value() then [Record(Info, message)] else []
    {
      Write(Info, message);
    }

    method WriteWarning(message: string)
      requires Valid()
      modifies this
      ensures Valid() && Logged([Record(Warning, message)])
      ensures records == old(records) + if debugLevel <= Warning.Value() then [Record(Warning, message)] else []
    {
      Write(Warning, message);
    }

    method WriteError(message: string)
      requires Valid()
      modifies this
      ensures Valid() && Logged([Record(Error, message)])
      ensures records == old(records) + if debugLevel <= Error.Value() then [Record(Error, message)] else []
    {
      Write(Error, message);
    }

    method WriteCritical(message: string)
      requires Valid()
      modifies this
      ensures Valid() && Logged([Record(Critical, message)])
      ensures records == old(records) + if debugLevel <= Critical.Value() then [Record(Critical, message)] else []
    {
      Write(Critical, message);
    }

    /** The class-wide level: the one the last successful load set, as writes never change it. */
    function GetDebugLevel(): (level: int)
      reads this
      ensures level == debugLevel
    {
      debugLevel
    }
  }
}
