/**
 * The logging helpers of fuzzer.cpp: the `logLevel` enumeration, the
 * `Logger::levelToString` mapping and the text of one log entry.
 * The clock is not modelled: the timestamp is an input string.
 */
module Logging {
  import opened Wrappers

  /** `enum logLevel`, in declaration order (SILENT = 0 ... ADVANCED = 5). */
  datatype LogLevel = Silent | Error | Warning | Info | Debug | Advanced

  /** The integer value the C++ enumerator carries. */
  function Code(level: LogLevel): (n: int)
    ensures 0 <= n < LevelCount
    ensures level == Silent <==> n == 0
    ensures level == Error <==> n == 1
    ensures level == Warning <==> n == 2
    ensures level == Info <==> n == 3
    ensures level == Debug <==> n == 4
    ensures level == Advanced <==> n == 5
  {
    match level
    case Silent => 0
    case Error => 1
    case Warning => 2
    case Info => 3
    case Debug => 4
    case Advanced => 5
  }

  const LevelCount := 6

  /** The enumerator whose value is `n`, when there is one. */
  function LevelOfCode(n: int): (r: Option<LogLevel>)
    ensures r.Some? <==> 0 <= n < LevelCount
    ensures r.Some? ==> Code(r.value) == n
  {
    if n == 0 then Some(Silent)
    else if n == 1 then Some(Error)
    else if n == 2 then Some(Warning)
    else if n == 3 then Some(Info)
    else if n == 4 then Some(Debug)
    else if n == 5 then Some(Advanced)
    else None
  }

  const Unknown := "UNKNOWN"

  /**
   * `Logger::levelToString`. A `logLevel` obtained by a cast may hold a value
   * that is none of the six enumerators (the enumeration's range is 0..7), which
   * is what the `default` label is for. The argument is taken as an integer, a
   * superset of that range: each enumerator value maps to the enumerator's name,
   * every other value to "UNKNOWN".
   */
  function LevelToString(n: int): (name: string)
    ensures name == Unknown <==> LevelOfCode(n).None?
    ensures |name| > 0 && name[0] != ' ' && ':' !in name && ']' !in name
  {
    match LevelOfCode(n)
    case Some(Silent) => "SILENT"
    case Some(Error) => "ERROR"
    case Some(Warning) => "WARNING"
    case Some(Info) => "INFO"
    case Some(Debug) => "DEBUG"
    case Some(Advanced) => "ADVANCED"
    case None => Unknown
  }

  /** Reads a label back: the inverse of `LevelToString` on the six names. */
  function LevelOfName(name: string): (r: Option<LogLevel>)
  {
    if name == "SILENT" then Some(Silent)
    else if name == "ERROR" then Some(Error)
    else if name == "WARNING" then Some(Warning)
    else if name == "INFO" then Some(Info)
    else if name == "DEBUG" then Some(Debug)
    else if name == "ADVANCED" then Some(Advanced)
    else None
  }

  /** Each enumerator's label reads back as that enumerator, so the six labels are distinct. */
  lemma LevelNameRoundTrip(level: LogLevel)
    ensures LevelOfName(LevelToString(Code(level))) == Some(level)
  {
  }

  /** "UNKNOWN" is not the label of any enumerator. */
  lemma UnknownIsNoLevel(n: int)
    requires LevelOfCode(n).None?
    ensures LevelOfName(LevelToString(n)) == None
  {
  }

  /**
   * One log line as `Logger::log` builds it: "[" timestamp "]" label ":" message
   * and the line break of `endl`. There is no space between "]" and the label.
   */
  function LogEntry(timestamp: string, n: int, message: string): (line: string)
    ensures |line| == |timestamp| + |LevelToString(n)| + |message| + 4
    ensures line[0] == '[' && line[|timestamp| + 1] == ']' && line[|line| - 1] == '\n'
    ensures line[|timestamp| + 2] == LevelToString(n)[0] != ' '
  {
    "[" + timestamp + "]" + LevelToString(n) + ":" + message + "\n"
  }

  /** The three text fields of a log line. */
  datatype Entry = Entry(timestamp: string, levelName: string, message: string)

  /** The first position at or after `from` holding `ch`, or `|s|` when there is none. */
  function IndexOf(s: string, ch: char, from: nat): (k: nat)
    requires from <= |s|
    ensures from <= k <= |s|
    ensures k < |s| ==> s[k] == ch
    ensures forall j :: from <= j < k ==> s[j] != ch
    decreases |s| - from
  {
    if from == |s| then |s|
    else if s[from] == ch then from
    else IndexOf(s, ch, from + 1)
  }

  /**
   * Splits a log line into its fields: the timestamp runs to the first ']',
   * the label from there to the next ':', and the message to the final line break.
   */
  function SplitEntry(line: string): (r: Option<Entry>)
  {
    if |line| < 2 || line[0] != '[' || line[|line| - 1] != '\n' then None
    else
      var close := IndexOf(line, ']', 1);
      if close >= |line| - 1 then None
      else
        var colon := IndexOf(line, ':', close + 1);
        if colon >= |line| - 1 then None
        else Some(Entry(line[1..close], line[close + 1..colon], line[colon + 1..|line| - 1]))
  }

  /** `IndexOf` finds the first occurrence when the part before it is free of `ch`. */
  lemma IndexOfAfter(prefix: string, ch: char, rest: string, from: nat)
    requires from <= |prefix|
    requires forall j :: from <= j < |prefix| ==> prefix[j] != ch
    ensures IndexOf(prefix + [ch] + rest, ch, from) == |prefix|
  {
    var s := prefix + [ch] + rest;
    assert forall j :: from <= j < |prefix| ==> s[j] == prefix[j];
    assert s[|prefix|] == ch;
  }

  /** Splitting a line assembled from fields free of the separators gives the fields back. */
  lemma SplitJoined(timestamp: string, name: string, message: string)
    requires ']' !in timestamp && ':' !in name
    ensures SplitEntry("[" + timestamp + "]" + name + ":" + message + "\n")
            == Some(Entry(timestamp, name, message))
  {
    var line := "[" + timestamp + "]" + name + ":" + message + "\n";
    assert line == "[" + timestamp + [']'] + (name + ":" + message + "\n");
    IndexOfAfter("[" + timestamp, ']', name + ":" + message + "\n", 1);
    var close := |timestamp| + 1;
    assert line == ("[" + timestamp + "]" + name) + [':'] + (message + "\n");
    IndexOfAfter("[" + timestamp + "]" + name, ':', message + "\n", close + 1);
    var colon := close + 1 + |name|;
    assert line[1..close] == timestamp;
    assert line[close + 1..colon] == name;
    assert line[colon + 1..|line| - 1] == message;
  }

  /**
   * A log line reads back as the timestamp, the level's label and the message,
   * whenever the timestamp holds no ']' (a "%Y-%m-%d %H:%M:%S" stamp never does).
   */
  lemma LogEntryRoundTrip(timestamp: string, n: int, message: string)
    requires ']' !in timestamp
    ensures SplitEntry(LogEntry(timestamp, n, message))
            == Some(Entry(timestamp, LevelToString(n), message))
  {
    SplitJoined(timestamp, LevelToString(n), message);
  }
}
