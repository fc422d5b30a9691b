/** The sales-rep app's debug log buffer (ventas/utils/apkLogger.ts): a list of
    structured entries, newest first, capped at 500, with per-level filters,
    network helpers and counters. */
module VentasLogger {
  import opened Common

  /** `MAX_LOGS`. */
  const MaxLogs := 500

  datatype Level = Log | Warn | Error | Network

  /** The `extra` object an entry carries. Only the network helpers attach
      one; the counters read its `success` flag. */
  datatype Extra =
    | NoExtra
    | Attempt(url: string, verb: string)
    | Success(url: string, status: nat, hasData: bool)
    | Failure(url: string, errorMessage: Option<string>, errorCode: Option<string>, errorStatus: Option<int>)

  /** `log.extra?.success` is truthy: only `logNetworkSuccess` sets it. */
  predicate SuccessFlag(x: Extra)
  {
    x.Success?
  }

  datatype LogEntry = LogEntry(timestamp: string, level: Level, message: string, extra: Extra)

  /** `level.toUpperCase()`. */
  function LevelName(level: Level): string
  {
    match level
    case Log => "LOG"
    case Warn => "WARN"
    case Error => "ERROR"
    case Network => "NETWORK"
  }

  /** `unshift` followed by `slice(0, MAX_LOGS)` on overflow: the entry goes
      to the front and whatever falls past the cap at the tail is dropped. */
  function Unshift(logs: seq<LogEntry>, e: LogEntry): (r: seq<LogEntry>)
    ensures |r| == Min(|logs| + 1, MaxLogs)
    ensures r[0] == e
    ensures r[1..] == logs[..|r| - 1]
  {
    var all := [e] + logs;
    if |all| > MaxLogs then all[..MaxLogs] else all
  }

  /** `logs.filter(log => log.level === level)`. */
  function Filter(logs: seq<LogEntry>, level: Level): (r: seq<LogEntry>)
    ensures |r| <= |logs|
    ensures forall e :: e in r <==> e in logs && e.level == level
  {
    if logs == [] then []
    else (if logs[0].level == level then [logs[0]] else []) + Filter(logs[1..], level)
  }

  /** Filtering keeps the stored order: it distributes over concatenation. */
  lemma {:induction false} FilterAppend(a: seq<LogEntry>, b: seq<LogEntry>, level: Level)
    ensures Filter(a + b, level) == Filter(a, level) + Filter(b, level)
  {
    if a == [] {
      assert a + b == b;
    } else {
      assert (a + b)[1..] == a[1..] + b;
      FilterAppend(a[1..], b, level);
    }
  }

  /** The network entries whose success flag is `success`. */
  function NetworkFilter(logs: seq<LogEntry>, success: bool): (r: seq<LogEntry>)
    ensures forall e :: e in r ==> e.level == Network && SuccessFlag(e.extra) == success
  {
    if logs == [] then []
    else
      var keep := logs[0].level == Network && SuccessFlag(logs[0].extra) == success;
      (if keep then [logs[0]] else []) + NetworkFilter(logs[1..], success)
  }

  datatype Stats = Stats(total: nat, errors: nat, warnings: nat, networkSuccess: nat, networkErrors: nat)

  /** `getLogStats`. */
  function StatsOf(logs: seq<LogEntry>): Stats
  {
    Stats(|logs|, |Filter(logs, Error)|, |Filter(logs, Warn)|,
          |NetworkFilter(logs, true)|, |NetworkFilter(logs, false)|)
  }

  /** Every network entry is counted exactly once, as a success or as an
      error. */
  lemma {:induction false} NetworkCountsPartition(logs: seq<LogEntry>)
    ensures StatsOf(logs).networkSuccess + StatsOf(logs).networkErrors == |Filter(logs, Network)|
    ensures StatsOf(logs).total == |logs|
  {
    if logs != [] {
      NetworkCountsPartition(logs[1..]);
    }
  }

  /** One line of `getLogsAsString`. */
  function FormatLine(e: LogEntry): string
  {
    "[" + e.timestamp + "] " + LevelName(e.level) + ": " + e.message
  }

  /** `getLogsAsString`: one formatted line per entry, in stored order
      (newest first), joined by newlines. */
  function LogsAsString(logs: seq<LogEntry>): (s: string)
    ensures logs == [] <==> s == ""
    ensures logs != [] ==> |FormatLine(logs[0])| <= |s| && s[..|FormatLine(logs[0])|] == FormatLine(logs[0])
  {
    var lines := seq(|logs|, i requires 0 <= i < |logs| => FormatLine(logs[i]));
    assert logs != [] ==> lines[0] == FormatLine(logs[0]);
    Join(lines, "\n")
  }

  /** A new entry at the front puts its line, then a newline, before the
      text of the entries already held. */
  lemma LogsAsStringCons(e: LogEntry, logs: seq<LogEntry>)
    requires logs != []
    ensures LogsAsString([e] + logs) == FormatLine(e) + "\n" + LogsAsString(logs)
  {
    var lines := seq(|logs|, i requires 0 <= i < |logs| => FormatLine(logs[i]));
    var all := [e] + logs;
    var allLines := seq(|all|, i requires 0 <= i < |all| => FormatLine(all[i]));
    assert allLines == [FormatLine(e)] + lines;
    assert allLines[1..] == lines;
  }

  function AttemptMessage(url: string, verb: string): string
  {
    "\U{1F310} Network Request: " + verb + " " + url
  }

  function SuccessMessage(url: string, status: nat): string
  {
    "\U{2705} Network Success: " + DecimalString(status) + " " + url
  }

  /** `error?.message || 'Unknown error'`. */
  function FailureMessage(url: string, message: Option<string>): string
  {
    "\U{274C} Network Error: " + url + " - " + (if Truthy(message) then message.value else "Unknown error")
  }

  const InitializedMessage := "\U{1F680} APK Logger initialized"
  const ClearedMessage := "\U{1F9F9} Logs cleared"

  /** An attempt entry carries no success flag, so the counters file it under
      network errors: logging an attempt into a buffer with room raises
      `networkErrors` by one and leaves `networkSuccess` alone. */
  lemma AttemptCountsAsError(logs: seq<LogEntry>, timestamp: string, url: string, verb: string)
    requires |logs| < MaxLogs
    ensures var after := Unshift(logs, LogEntry(timestamp, Network, AttemptMessage(url, verb), Attempt(url, verb)));
            StatsOf(after).networkErrors == StatsOf(logs).networkErrors + 1
            && StatsOf(after).networkSuccess == StatsOf(logs).networkSuccess
  {
    var e := LogEntry(timestamp, Network, AttemptMessage(url, verb), Attempt(url, verb));
    var after := Unshift(logs, e);
    assert after == [e] + logs;
    assert after[1..] == logs;
  }

  /** On overflow the oldest entry, the last one, is the one dropped. */
  lemma OverflowDropsOldest(logs: seq<LogEntry>, e: LogEntry)
    requires |logs| == MaxLogs
    ensures Unshift(logs, e) == [e] + logs[..MaxLogs - 1]
  {
  }

  /** The logger: the buffer is the only state. */
  class Logger {
    var logs: seq<LogEntry>

    ghost predicate Valid()
      reads this
    {
      |logs| <= MaxLogs
    }

    /** The constructor's `initializeLogger`: the stored entries are loaded
        (the read is a parameter) and the start-up entry is added. */
    constructor(stored: seq<LogEntry>, timestamp: string)
      ensures Valid()
      ensures logs == Unshift(stored, LogEntry(timestamp, Log, InitializedMessage, NoExtra))
    {
      logs := Unshift(stored, LogEntry(timestamp, Log, InitializedMessage, NoExtra));
    }

    /** `addLog`. */
    method AddLog(level: Level, message: string, extra: Extra, timestamp: string)
      requires Valid()
      modifies this
      ensures Valid()
      ensures logs == Unshift(old(logs), LogEntry(timestamp, level, message, extra))
    {
      logs := [LogEntry(timestamp, level, message, extra)] + logs;
      if |logs| > MaxLogs {
        logs := logs[..MaxLogs];
      }
    }

    /** `logNetworkAttempt`. */
    method LogNetworkAttempt(url: string, verb: string, timestamp: string)
      requires Valid()
      modifies this
      ensures Valid()
      ensures logs == Unshift(old(logs), LogEntry(timestamp, Network, AttemptMessage(url, verb), Attempt(url, verb)))
      ensures !SuccessFlag(logs[0].extra)
    {
      AddLog(Network, AttemptMessage(url, verb), Attempt(url, verb), timestamp);
    }

    /** `logNetworkSuccess`. */
    method LogNetworkSuccess(url: string, status: nat, hasData: bool, timestamp: string)
      requires Valid()
      modifies this
      ensures Valid()
      ensures logs == Unshift(old(logs), LogEntry(timestamp, Network, SuccessMessage(url, status), Success(url, status, hasData)))
      ensures logs[0].level == Network && SuccessFlag(logs[0].extra)
    {
      AddLog(Network, SuccessMessage(url, status), Success(url, status, hasData), timestamp);
    }

    /** `logNetworkError`. */
    method LogNetworkError(url: string, message: Option<string>, code: Option<string>, status: Option<int>, timestamp: string)
      requires Valid()
      modifies this
      ensures Valid()
      ensures logs == Unshift(old(logs), LogEntry(timestamp, Network, FailureMessage(url, message), Failure(url, message, code, status)))
      ensures logs[0].level == Network && !SuccessFlag(logs[0].extra)
    {
      AddLog(Network, FailureMessage(url, message), Failure(url, message, code, status), timestamp);
    }

    /** `getLogs(level?)`: the entries of that level, or a copy of all. */
    function GetLogs(level: Option<Level>): (r: seq<LogEntry>)
      reads this
      ensures level.None? ==> r == logs
      ensures level.Some? ==> forall e :: e in r <==> e in logs && e.level == level.value
    {
      if level.Some? then Filter(logs, level.value) else logs
    }

    /** `getLogsAsString`. */
    function GetLogsAsString(): (s: string)
      reads this
      ensures s == LogsAsString(logs)
    {
      LogsAsString(logs)
    }

    /** `clearLogs`: empties the buffer and then logs that it did. */
    method ClearLogs(timestamp: string)
      requires Valid()
      modifies this
      ensures Valid()
      ensures logs == [LogEntry(timestamp, Log, ClearedMessage, NoExtra)]
    {
      logs := [];
      AddLog(Log, ClearedMessage, NoExtra, timestamp);
    }

    /** `getLogStats`. */
    function GetLogStats(): (s: Stats)
      reads this
      ensures s.total == |logs|
      ensures s.networkSuccess + s.networkErrors == |Filter(logs, Network)|
    {
      NetworkCountsPartition(logs);
      StatsOf(logs)
    }
  }
}
