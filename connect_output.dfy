/**
 * The connect notifier's console logger: fixed-width severity prefixes, one line per message, and
 * the process-wide cache that hands out one logger per stream hash code.
 */
module ConnectOutput {
  import opened Common
  import Host

  const ERROR: string := "[Error]  "
  const INFO: string := "[Info]   "
  const SUCCESS: string := "[Success]"

  datatype Severity = Info | Error | Success

  /** The prefix each severity is printed with; all three have the same width. */
  function Prefix(s: Severity): (p: string)
    ensures |p| == 9
  {
    match s
    case Info => INFO
    case Error => ERROR
    case Success => SUCCESS
  }

  /** `String.format("%s %s", prefix, message)`: the text of one printed line. */
  function FormatLine(prefix: string, message: string): string
  {
    prefix + " " + message
  }

  /** One message as the logger records it. */
  datatype LogEntry = LogEntry(severity: Severity, message: string)

  function Line(e: LogEntry): string
  {
    FormatLine(Prefix(e.severity), e.message)
  }

  /** What a sequence of messages writes to the stream: each line followed by a line break. */
  function Render(entries: seq<LogEntry>): seq<string>
  {
    if entries == [] then [] else [Line(entries[0]) + "\n"] + Render(entries[1..])
  }

  lemma {:induction false} RenderAppend(a: seq<LogEntry>, b: seq<LogEntry>)
    ensures Render(a + b) == Render(a) + Render(b)
  {
    if a == [] {
      assert a + b == b;
    } else {
      assert (a + b)[0] == a[0];
      assert (a + b)[1..] == a[1..] + b;
      RenderAppend(a[1..], b);
    }
  }

  /** Messages printed after earlier output extend it by their own lines. */
  lemma PrintedAfter(before: seq<string>, a: seq<LogEntry>, b: seq<LogEntry>)
    ensures (before + Render(a)) + Render(b) == before + Render(a + b)
  {
    RenderAppend(a, b);
    AppendAssoc(before, Render(a), Render(b));
  }

  /**
   * Reads a printed line back: the severity from its 9-character prefix, the message after the
   * separating blank. Whatever it accepts is exactly a line the logger prints.
   */
  function ParseLine(line: string): (r: Option<LogEntry>)
    ensures r.Some? ==> Line(r.value) == line
  {
    if |line| < 10 || line[9] != ' ' then None
    else
      var message := line[10..];
      assert line == line[..9] + " " + message;
      if line[..9] == INFO then Some(LogEntry(Info, message))
      else if line[..9] == ERROR then Some(LogEntry(Error, message))
      else if line[..9] == SUCCESS then Some(LogEntry(Success, message))
      else None
  }

  /** Every printed line can be read back: severity and message are recoverable from the text. */
  lemma ParseLineInvertsLine(e: LogEntry)
    ensures ParseLine(Line(e)) == Some(e)
  {
    var line := Line(e);
    assert line[..9] == Prefix(e.severity);
    assert line[9] == ' ';
    assert line[10..] == e.message;
  }

  /** Two messages print the same line only if they have the same severity and text. */
  lemma LineInjective(e1: LogEntry, e2: LogEntry)
    requires Line(e1) == Line(e2)
    ensures e1 == e2
  {
    ParseLineInvertsLine(e1);
    ParseLineInvertsLine(e2);
  }

  /** A logger bound to one print stream. */
  class OutputUtils {
    const printStream: Host.PrintStream

    constructor (printStream: Host.PrintStream)
      ensures this.printStream == printStream
    {
      this.printStream := printStream;
    }

    /** Prints exactly one line, the prefix and the message separated by a blank. */
    method Print(prefix: string, message: string)
      modifies printStream
      ensures printStream.writes == old(printStream.writes) + [FormatLine(prefix, message) + "\n"]
    {
      printStream.Println(FormatLine(prefix, message));
    }

    method Info(message: string)
      modifies printStream
      ensures printStream.writes == old(printStream.writes) + Render([LogEntry(Severity.Info, message)])
    {
      Print(INFO, message);
    }

    method Error(message: string)
      modifies printStream
      ensures printStream.writes == old(printStream.writes) + Render([LogEntry(Severity.Error, message)])
    {
      Print(ERROR, message);
    }

    method Success(message: string)
      modifies printStream
      ensures printStream.writes == old(printStream.writes) + Render([LogEntry(Severity.Success, message)])
    {
      Print(SUCCESS, message);
    }
  }

  /**
   * Get-or-insert on a map: the value already under `k` if there is one, otherwise `v`, which is
   * then stored under `k`. No entry is ever replaced and no key is dropped.
   */
  function GetOrInsert<K, V>(m: map<K, V>, k: K, v: V): (r: (map<K, V>, V))
    ensures k in r.0 && r.0[k] == r.1
    ensures r.0.Keys == m.Keys + {k}
    ensures forall j :: j in m ==> r.0[j] == m[j]
    ensures k !in m ==> r.1 == v
  {
    if k in m then (m, m[k]) else (m[k := v], v)
  }

  /** A second lookup under the same key changes nothing and returns the same value. */
  lemma GetOrInsertIdempotent<K, V>(m: map<K, V>, k: K, v: V, v': V)
    ensures GetOrInsert(GetOrInsert(m, k, v).0, k, v') == GetOrInsert(m, k, v)
  {
  }

  /** The stream the cached logger for `s` writes to: the first stream seen with its hash code. */
  function StreamFor(instances: map<int, OutputUtils>, s: Host.PrintStream): Host.PrintStream
  {
    if s.hashCode in instances then instances[s.hashCode].printStream else s
  }

  /**
   * The cache after a lookup for stream `s`, from the cache `before`: `s`'s hash code is cached,
   * as a get-or-insert that keeps every old entry, and the logger under it writes to the first
   * stream seen with that hash code.
   */
  predicate LookedUp(before: map<int, OutputUtils>, after: map<int, OutputUtils>, s: Host.PrintStream)
  {
    s.hashCode in after && after == GetOrInsert(before, s.hashCode, after[s.hashCode]).0 &&
    after[s.hashCode].printStream == StreamFor(before, s)
  }

  /** The static `INSTANCES` map of the logger class, keyed by `stream.hashCode()`. */
  class LoggerRegistry {
    var instances: map<int, OutputUtils>

    constructor ()
      ensures instances == map[]
    {
      instances := map[];
    }

    /**
     * `getLoggerForStream`: the logger cached under the stream's hash code, creating and caching
     * a logger for this stream when there is none.
     */
    method GetLoggerForStream(stream: Host.PrintStream) returns (logger: OutputUtils)
      modifies this
      ensures (instances, logger) == GetOrInsert(old(instances), stream.hashCode, logger)
      ensures stream.hashCode !in old(instances) ==> fresh(logger) && logger.printStream == stream
      ensures logger.printStream == StreamFor(old(instances), stream)
    {
      if stream.hashCode !in instances {
        var created := new OutputUtils(stream);
        instances := instances[stream.hashCode := created];
      }
      logger := instances[stream.hashCode];
    }
  }

  /**
   * Because the cache is keyed by hash code and not by identity, a second, distinct stream with
   * the same hash code is given the logger that writes to the first stream.
   */
  method CollidingStreamsShareLogger(hash: int) returns (first: Host.PrintStream, second: Host.PrintStream, logger: OutputUtils)
    ensures first != second && first.hashCode == hash && second.hashCode == hash
    ensures logger.printStream == first && logger.printStream != second
  {
    var registry := new LoggerRegistry();
    first := new Host.PrintStream(hash);
    second := new Host.PrintStream(hash);
    var forFirst := registry.GetLoggerForStream(first);
    logger := registry.GetLoggerForStream(second);
  }
}
