/** The levelled in-memory log of client/src/utils/logger.ts: a threshold
    filter in front of a FIFO buffer of at most `MaxLogs` entries. */
module Logger {
  import opened Types
  import SeqUtil

  datatype LogLevel = Debug | Info | Warning | Error

  /** `data?: any` is kept as its rendering. */
  datatype LogEntry = LogEntry(
    timestamp: string,
    level: LogLevel,
    message: string,
    context: Option<string>,
    data: Option<string>)

  const MaxLogs := 1000

  /** The `levels` array of `shouldLog`, least severe first. */
  const Levels: seq<LogLevel> := [Debug, Info, Warning, Error]

  /** The severity order DEBUG < INFO < WARNING < ERROR. */
  function Severity(l: LogLevel): nat
  {
    match l
    case Debug => 0
    case Info => 1
    case Warning => 2
    case Error => 3
  }

  /** `levels.indexOf(l)`. */
  function IndexOf(levels: seq<LogLevel>, l: LogLevel): int
  {
    if levels == [] then -1
    else if levels[0] == l then 0
    else var i := IndexOf(levels[1..], l); if i < 0 then -1 else i + 1
  }

  /** Every level is in `Levels`, at the position of its severity. */
  lemma LevelIndexIsSeverity(l: LogLevel)
    ensures IndexOf(Levels, l) == Severity(l)
  {
    assert Levels[1..] == [Info, Warning, Error];
    assert Levels[1..][1..] == [Warning, Error];
    assert Levels[1..][1..][1..] == [Error];
  }

  /** The buffer after pushing `e`, then shifting once when it grew past
      `MaxLogs`. */
  function Appended(buf: seq<LogEntry>, e: LogEntry): (r: seq<LogEntry>)
    ensures |buf| < MaxLogs ==> r == buf + [e]
    ensures |buf| >= MaxLogs ==> r == buf[1..] + [e]
    ensures |buf| <= MaxLogs ==> |r| <= MaxLogs
  {
    var pushed := buf + [e];
    if |pushed| > MaxLogs then pushed[1..] else pushed
  }

  class Logger {
    var logs: seq<LogEntry>
    var consoleOutput: bool
    var storeInMemory: bool
    var logLevel: LogLevel

    ghost predicate Valid()
      reads this
    {
      |logs| <= MaxLogs
    }

    /** The module's initial state: empty buffer, both outputs on, level INFO. */
    constructor ()
      ensures Valid() && logs == []
      ensures consoleOutput && storeInMemory && logLevel == Info
    {
      logs := [];
      consoleOutput := true;
      storeInMemory := true;
      logLevel := Info;
    }

    /** `shouldLog`: the level's index in `Levels` is at least the
        configured one's. */
    predicate ShouldLog(level: LogLevel)
      reads this
      ensures ShouldLog(level) <==> Severity(level) >= Severity(logLevel)
    {
      LevelIndexIsSeverity(level);
      LevelIndexIsSeverity(logLevel);
      IndexOf(Levels, level) >= IndexOf(Levels, logLevel)
    }

    method Log(level: LogLevel, message: string, context: Option<string>,
               data: Option<string>, timestamp: string) returns (r: Option<LogEntry>)
      requires Valid()
      modifies this`logs
      ensures Valid()
      ensures !old(ShouldLog(level)) ==> r == None && logs == old(logs)
      ensures old(ShouldLog(level)) ==>
                r == Some(LogEntry(timestamp, level, message, context, data)) &&
                logs == if storeInMemory then Appended(old(logs), r.value) else old(logs)
    {
      if !ShouldLog(level) {
        return None;
      }
      var entry := LogEntry(timestamp, level, message, context, data);
      if storeInMemory {
        logs := logs + [entry];
        if |logs| > MaxLogs {
          logs := logs[1..];
        }
      }
      return Some(entry);
    }

    /** `getLogs()`: a copy of the buffer. */
    method GetLogs() returns (r: seq<LogEntry>)
      ensures r == logs
    {
      r := logs[..];
    }

    function GetLogsByLevel(level: LogLevel): (r: seq<LogEntry>)
      reads this
      ensures forall e :: e in r <==> e in logs && e.level == level
      ensures |r| <= |logs|
      ensures SeqUtil.SubsequenceOf(r, logs)
      ensures forall e :: multiset(r)[e] == if e.level == level then multiset(logs)[e] else 0
    {
      SeqUtil.FilterIsSubsequence(logs, (e: LogEntry) => e.level == level);
      SeqUtil.FilterMultiplicity(logs, (e: LogEntry) => e.level == level);
      SeqUtil.Filter(logs, (e: LogEntry) => e.level == level)
    }

    function GetLogsByContext(context: string): (r: seq<LogEntry>)
      reads this
      ensures forall e :: e in r <==> e in logs && e.context == Some(context)
      ensures |r| <= |logs|
      ensures SeqUtil.SubsequenceOf(r, logs)
      ensures forall e :: multiset(r)[e] == if e.context == Some(context) then multiset(logs)[e] else 0
    {
      SeqUtil.FilterIsSubsequence(logs, (e: LogEntry) => e.context == Some(context));
      SeqUtil.FilterMultiplicity(logs, (e: LogEntry) => e.context == Some(context));
      SeqUtil.Filter(logs, (e: LogEntry) => e.context == Some(context))
    }

    method ClearLogs()
      modifies this`logs
      ensures logs == []
    {
      logs := [];
    }

    method SetLogLevel(level: LogLevel)
      modifies this`logLevel
      ensures logLevel == level
    {
      logLevel := level;
    }

    method EnableConsoleOutput(enable: bool)
      modifies this`consoleOutput
      ensures consoleOutput == enable
    {
      consoleOutput := enable;
    }

    method EnableMemoryStorage(enable: bool)
      modifies this`storeInMemory
      ensures storeInMemory == enable
    {
      storeInMemory := enable;
    }
  }

  /** With the default level INFO, DEBUG is suppressed and the rest pass. */
  lemma DefaultLevelSuppressesDebug(lg: Logger)
    requires lg.logLevel == Info
    ensures !lg.ShouldLog(Debug)
    ensures lg.ShouldLog(Info) && lg.ShouldLog(Warning) && lg.ShouldLog(Error)
  {
  }

  /** The by-level query after an append: the filter of the longer buffer is
      the old answer (less the shifted-out entry) followed by the new entry
      when it matches. */
  lemma {:induction false} ByLevelAfterAppend(buf: seq<LogEntry>, e: LogEntry, level: LogLevel)
    requires |buf| <= MaxLogs
    ensures var p := (x: LogEntry) => x.level == level;
            var kept := if |buf| < MaxLogs then buf else buf[1..];
            SeqUtil.Filter(Appended(buf, e), p) ==
              SeqUtil.Filter(kept, p) + (if e.level == level then [e] else [])
  {
    var p := (x: LogEntry) => x.level == level;
    var kept := if |buf| < MaxLogs then buf else buf[1..];
    assert Appended(buf, e) == kept + [e];
    SeqUtil.FilterConcat(kept, [e], p);
    assert [e][1..] == [];
  }
}
