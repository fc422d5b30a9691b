/** The customer app's debug log buffer (clientes/utils/apkLogger.ts): console
    output captured as plain strings, oldest first, keeping the last 500, with
    counters that classify entries by substring. */
module ClientesLogger {
  import opened Common

  /** `maxLogs`. */
  const MaxLogs := 500

  const NetworkSuccessTag := "\U{2705} [NETWORK]"
  const NetworkErrorTag := "\U{274C} [NETWORK]"

  /** The entry `addLog` stores: `[timestamp] LEVEL: message`, the message
      being the (already stringified) console arguments joined by spaces. */
  function Entry(timestamp: string, level: string, args: seq<string>): string
  {
    "[" + timestamp + "] " + level + ": " + Join(args, " ")
  }

  /** `push` followed by `slice(-maxLogs)` on overflow: the entry goes to the
      end and the oldest entries at the front are dropped. */
  function Push(logs: seq<string>, e: string): (r: seq<string>)
    ensures |r| == Min(|logs| + 1, MaxLogs)
    ensures r[|r| - 1] == e
    ensures r[..|r| - 1] == logs[|logs| + 1 - |r|..]
  {
    var all := logs + [e];
    if |all| > MaxLogs then all[|all| - MaxLogs..] else all
  }

  /** `logs.filter(log => log.includes(sub)).length`. */
  function CountContaining(logs: seq<string>, sub: string): (n: nat)
    ensures n <= |logs|
  {
    if logs == [] then 0
    else (if Contains(logs[0], sub) then 1 else 0) + CountContaining(logs[1..], sub)
  }

  lemma {:induction false} CountAppend(a: seq<string>, b: seq<string>, sub: string)
    ensures CountContaining(a + b, sub) == CountContaining(a, sub) + CountContaining(b, sub)
  {
    if a == [] {
      assert a + b == b;
    } else {
      assert (a + b)[1..] == a[1..] + b;
      CountAppend(a[1..], b, sub);
    }
  }

  datatype Stats = Stats(total: nat, errors: nat, warnings: nat, networkSuccess: nat, networkErrors: nat)

  /** `getLogStats`. */
  function StatsOf(logs: seq<string>): (s: Stats)
    ensures s.total == |logs|
    ensures s.errors <= s.total && s.warnings <= s.total
  {
    Stats(|logs|, CountContaining(logs, "ERROR"), CountContaining(logs, "WARN"),
          CountContaining(logs, NetworkSuccessTag), CountContaining(logs, NetworkErrorTag))
  }

  /** The counters look at the whole text, not the level: a `LOG` entry whose
      message mentions `ERROR` is counted as an error. */
  lemma LogMentioningErrorCountsAsError(logs: seq<string>, timestamp: string, args: seq<string>)
    requires |logs| < MaxLogs
    requires Contains(Join(args, " "), "ERROR")
    ensures StatsOf(Push(logs, Entry(timestamp, "LOG", args))).errors == StatsOf(logs).errors + 1
  {
    var e := Entry(timestamp, "LOG", args);
    var prefix := "[" + timestamp + "] " + "LOG" + ": ";
    assert e == prefix + Join(args, " ") + "";
    ContainsInfix(prefix, Join(args, " "), "", "ERROR");
    assert Push(logs, e) == logs + [e];
    CountAppend(logs, [e], "ERROR");
    assert [e][1..] == [];
  }

  /** `error?.response?.status || 'No status'`: a missing or zero status
      prints as `No status`. */
  function StatusText(status: Option<nat>): string
  {
    if status.Some? && status.value != 0 then DecimalString(status.value) else "No status"
  }

  /** The four lines `logNetworkError` writes to `console.error`. */
  function NetworkErrorLines(url: string, message: Option<string>, status: Option<nat>, code: Option<string>): (lines: seq<string>)
    ensures |lines| == 4
    ensures forall i :: 0 <= i < 4 ==> StartsWith(lines[i], NetworkErrorTag)
  {
    [NetworkErrorTag + " Failed " + url,
     NetworkErrorTag + " Error: " + (if Truthy(message) then message.value else "Unknown error"),
     NetworkErrorTag + " Status: " + StatusText(status),
     NetworkErrorTag + " Code: " + (if Truthy(code) then code.value else "No code")]
  }

  /** Each line `logNetworkError` writes is counted twice over: as an error,
      because the level text `ERROR` is part of the entry, and as a network
      error, because of its tag. */
  lemma NetworkErrorLineCounted(logs: seq<string>, timestamp: string, line: string)
    requires |logs| < MaxLogs
    requires StartsWith(line, NetworkErrorTag)
    ensures var after := StatsOf(Push(logs, Entry(timestamp, "ERROR", [line])));
            after.errors == StatsOf(logs).errors + 1
            && after.networkErrors == StatsOf(logs).networkErrors + 1
  {
    var e := Entry(timestamp, "ERROR", [line]);
    assert Join([line], " ") == line;
    assert Contains("ERROR", "ERROR");
    assert e == "[" + timestamp + "] " + "ERROR" + (": " + line);
    ContainsInfix("[" + timestamp + "] ", "ERROR", ": " + line, "ERROR");
    assert Contains(line, NetworkErrorTag);
    assert e == "[" + timestamp + "] " + "ERROR" + ": " + line + "";
    ContainsInfix("[" + timestamp + "] " + "ERROR" + ": ", line, "", NetworkErrorTag);
    assert Push(logs, e) == logs + [e];
    CountAppend(logs, [e], "ERROR");
    CountAppend(logs, [e], NetworkErrorTag);
    assert [e][1..] == [];
  }

  /** The logger. `capturing` is whether the console was intercepted, which
      the constructor does only in a release build. */
  class Logger {
    const capturing: bool
    var logs: seq<string>

    ghost predicate Valid()
      reads this
    {
      |logs| <= MaxLogs
    }

    constructor(isDev: bool)
      ensures Valid()
      ensures capturing == !isDev && logs == []
    {
      capturing := !isDev;
      logs := [];
    }

    /** `addLog`. */
    method AddLog(level: string, args: seq<string>, timestamp: string)
      requires Valid()
      modifies this
      ensures Valid()
      ensures logs == Push(old(logs), Entry(timestamp, level, args))
    {
      logs := logs + [Entry(timestamp, level, args)];
      if |logs| > MaxLogs {
        logs := logs[|logs| - MaxLogs..];
      }
    }

    /** A call of `console.log`/`warn`/`error` (level `LOG`, `WARN`,
        `ERROR`): recorded only when the console is intercepted. */
    method Console(level: string, args: seq<string>, timestamp: string)
      requires Valid()
      modifies this
      ensures Valid()
      ensures capturing ==> logs == Push(old(logs), Entry(timestamp, level, args))
      ensures !capturing ==> logs == old(logs)
    {
      if capturing {
        AddLog(level, args, timestamp);
      }
    }

    /** `getLogs`: a copy, in stored order. */
    function GetLogs(): (r: seq<string>)
      reads this
      ensures |r| == |logs| && forall i :: 0 <= i < |r| ==> r[i] == logs[i]
    {
      logs
    }

    /** `getLogsAsString`. */
    function GetLogsAsString(): (s: string)
      reads this
      ensures logs == [] ==> s == ""
      ensures |logs| == 1 ==> s == logs[0]
    {
      Join(logs, "\n")
    }

    /** `clearLogs`. */
    method ClearLogs()
      modifies this
      ensures Valid() && logs == []
    {
      logs := [];
    }

    /** `getLogStats`. */
    function GetLogStats(): (s: Stats)
      reads this
      ensures s.total == |logs|
    {
      StatsOf(logs)
    }

    /** `logNetworkAttempt`: one `console.log`. */
    method LogNetworkAttempt(url: string, verb: string, timestamp: string)
      requires Valid()
      modifies this
      ensures Valid()
      ensures capturing ==> logs == Push(old(logs), Entry(timestamp, "LOG", ["\U{1F310} [NETWORK] Attempting " + verb + " " + url]))
      ensures !capturing ==> logs == old(logs)
    {
      Console("LOG", ["\U{1F310} [NETWORK] Attempting " + verb + " " + url], timestamp);
    }

    /** `logNetworkSuccess`: one `console.log`, and a second listing the
        response's keys when the response is an object. */
    method LogNetworkSuccess(url: string, status: nat, responseKeys: Option<seq<string>>, timestamp: string)
      requires Valid()
      modifies this
      ensures Valid()
      ensures !capturing ==> logs == old(logs)
      ensures capturing && responseKeys.None? ==>
        logs == Push(old(logs), Entry(timestamp, "LOG", [NetworkSuccessTag + " Success " + DecimalString(status) + " " + url]))
      ensures capturing && responseKeys.Some? ==>
        logs == Push(Push(old(logs), Entry(timestamp, "LOG", [NetworkSuccessTag + " Success " + DecimalString(status) + " " + url])),
                     Entry(timestamp, "LOG", [NetworkSuccessTag + " Response keys: " + Join(responseKeys.value, ", ")]))
    {
      Console("LOG", [NetworkSuccessTag + " Success " + DecimalString(status) + " " + url], timestamp);
      if responseKeys.Some? {
        Console("LOG", [NetworkSuccessTag + " Response keys: " + Join(responseKeys.value, ", ")], timestamp);
      }
    }

    /** `logNetworkError`: four `console.error` lines. */
    method LogNetworkError(url: string, message: Option<string>, status: Option<nat>, code: Option<string>, timestamp: string)
      requires Valid()
      modifies this
      ensures Valid()
      ensures !capturing ==> logs == old(logs)
      ensures capturing ==>
        (var lines := NetworkErrorLines(url, message, status, code);
         logs == Push(Push(Push(Push(old(logs),
                   Entry(timestamp, "ERROR", [lines[0]])),
                   Entry(timestamp, "ERROR", [lines[1]])),
                   Entry(timestamp, "ERROR", [lines[2]])),
                   Entry(timestamp, "ERROR", [lines[3]])))
    {
      var lines := NetworkErrorLines(url, message, status, code);
      Console("ERROR", [lines[0]], timestamp);
      Console("ERROR", [lines[1]], timestamp);
      Console("ERROR", [lines[2]], timestamp);
      Console("ERROR", [lines[3]], timestamp);
    }
  }
}
