/**
 * LogParser, the test utility that splits captured log output into entries and
 * searches them by message.
 */
module LogParsing {

  /** One log line: the five groups of the log pattern. */
  datatype LogEntry = LogEntry(timestamp: string, thread: string, level: string, logger: string, message: string)

  class LogParser {
    var logString: string
    var logEntries: seq<LogEntry>

    /**
     * `matches` stands for the entries the log pattern finds in `logString`,
     * in the order the matcher finds them.
     */
    constructor (logString: string, matches: seq<LogEntry>)
      ensures this.logString == logString
      ensures logEntries == matches && Size() == |matches|
    {
      this.logString := logString;
      logEntries := [];
      new;
      ParseLogString(matches);
    }

    /** parseLogString: start empty and append each match in turn. */
    method ParseLogString(matches: seq<LogEntry>)
      modifies this`logEntries
      ensures logEntries == matches
    {
      logEntries := [];
      var k := 0;
      while k < |matches|
        invariant 0 <= k <= |matches|
        invariant logEntries == matches[..k]
      {
        logEntries := logEntries + [matches[k]];
        k := k + 1;
      }
    }

    function Size(): nat
      reads this
    {
      |logEntries|
    }

    /** The first index whose entry carries `message`, or -1 when none does. */
    method FindMessage(message: string) returns (index: int)
      ensures -1 <= index < Size()
      ensures index >= 0 ==> logEntries[index].message == message
      ensures index >= 0 ==> forall j :: 0 <= j < index ==> logEntries[j].message != message
      ensures index == -1 <==> forall j :: 0 <= j < |logEntries| ==> logEntries[j].message != message
    {
      for i := 0 to |logEntries|
        invariant forall j :: 0 <= j < i ==> logEntries[j].message != message
      {
        if logEntries[i].message == message {
          return i;
        }
      }
      return -1;
    }

    /** Whether some entry carries `message`. */
    method Contains(message: string) returns (found: bool)
      ensures found <==> exists j :: 0 <= j < |logEntries| && logEntries[j].message == message
    {
      var index := FindMessage(message);
      found := index > -1;
    }
  }
}
