/** The state every agent carries: its registered name, a status field and the list
    of log lines it accumulates over its lifetime. */
module BaseAgent {
  import opened Graph

  /** The line `log(message)` appends: `[timestamp] [name] message`. */
  function LogEntry(timestamp: string, name: string, message: string): string {
    "[" + timestamp + "] [" + name + "] " + message
  }

  /** A log line brackets the timestamp and the name and ends with the message. */
  lemma LogEntryShape(timestamp: string, name: string, message: string)
    ensures var r := LogEntry(timestamp, name, message);
      && |r| == |timestamp| + |name| + |message| + 6
      && r[0] == '[' && r[1..|timestamp| + 1] == timestamp && r[|timestamp| + 1] == ']'
      && r[|timestamp| + 3] == '[' && r[|timestamp| + 4..|timestamp| + 4 + |name|] == name
      && r[|r| - |message|..] == message
  {
  }

  class Agent {
    const name: string
    var status: AgentStatus
    var logs: seq<string>

    constructor (name: string)
      ensures this.name == name && status == Idle && logs == []
    {
      this.name := name;
      status := Idle;
      logs := [];
    }

    /** Appends one entry at the end of the log and changes nothing else. */
    method Log(message: string, timestamp: string)
      modifies this
      ensures logs == old(logs) + [LogEntry(timestamp, name, message)]
      ensures status == old(status)
    {
      logs := logs + [LogEntry(timestamp, name, message)];
    }

    /** The accumulated log, oldest entry first. */
    method GetLogs() returns (r: seq<string>)
      ensures r == logs
    {
      r := logs;
    }

    method SetStatus(s: AgentStatus)
      modifies this
      ensures status == s && logs == old(logs)
    {
      status := s;
    }
  }

  /** The entries a sequence of `log` calls appends when every call is stamped `now`. */
  function Entries(name: string, now: string, messages: seq<string>): seq<string> {
    seq(|messages|, i requires 0 <= i < |messages| => LogEntry(now, name, messages[i]))
  }

  /** Logging in two rounds appends the same entries as logging all at once. */
  lemma EntriesAppend(name: string, now: string, messages: seq<string>, more: seq<string>)
    ensures Entries(name, now, messages + more) == Entries(name, now, messages) + Entries(name, now, more)
  {
  }

  /** Logs are never cleared: after any sequence of `log` calls the earlier entries are
      a prefix, and there is exactly one new entry per call, ending with its message. */
  lemma LogsOnlyGrow(before: seq<string>, name: string, now: string, messages: seq<string>)
    ensures var after := before + Entries(name, now, messages);
      && |after| == |before| + |messages|
      && after[..|before|] == before
      && forall i :: 0 <= i < |messages| ==>
           var e := after[|before| + i]; |e| >= |messages[i]| && e[|e| - |messages[i]|..] == messages[i]
  {
    var after := before + Entries(name, now, messages);
    forall i | 0 <= i < |messages|
      ensures var e := after[|before| + i]; |e| >= |messages[i]| && e[|e| - |messages[i]|..] == messages[i]
    {
      LogEntryShape(now, name, messages[i]);
    }
  }
}
