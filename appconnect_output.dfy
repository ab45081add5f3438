/**
 * The appconnect plugin's stateless output helpers: each returns the one line its static method
 * prints, a severity prefix and the message separated by a blank.
 */
module AppConnectOutput {
  import opened Common
  import ConnectOutput

  const ERROR: string := "[Error]  "
  const INFO: string := "[Info]   "
  const SUCCESS: string := "[Success]"

  /** The line `print(stream, prefix, message)` writes: `String.format("%s %s", prefix, message)`. */
  function Print(prefix: string, message: string): (line: string)
    ensures |line| == |prefix| + 1 + |message|
    ensures line[..|prefix|] == prefix && line[|prefix|] == ' ' && line[|prefix| + 1..] == message
  {
    prefix + " " + message
  }

  /** An info line: the connect logger reads it back as an info message with the same text. */
  function Info(message: string): (line: string)
    ensures |line| == |message| + 10 && line[..9] == INFO
    ensures ConnectOutput.ParseLine(line) == Some(ConnectOutput.LogEntry(ConnectOutput.Info, message))
  {
    var line := Print(INFO, message);
    ConnectOutput.ParseLineInvertsLine(ConnectOutput.LogEntry(ConnectOutput.Info, message));
    line
  }

  function Error(message: string): (line: string)
    ensures |line| == |message| + 10 && line[..9] == ERROR
    ensures ConnectOutput.ParseLine(line) == Some(ConnectOutput.LogEntry(ConnectOutput.Error, message))
  {
    var line := Print(ERROR, message);
    ConnectOutput.ParseLineInvertsLine(ConnectOutput.LogEntry(ConnectOutput.Error, message));
    line
  }

  function Success(message: string): (line: string)
    ensures |line| == |message| + 10 && line[..9] == SUCCESS
    ensures ConnectOutput.ParseLine(line) == Some(ConnectOutput.LogEntry(ConnectOutput.Success, message))
  {
    var line := Print(SUCCESS, message);
    ConnectOutput.ParseLineInvertsLine(ConnectOutput.LogEntry(ConnectOutput.Success, message));
    line
  }

  /** All three prefixes have the width of the connect logger's, 9 characters. */
  lemma PrefixWidths()
    ensures |ERROR| == |INFO| == |SUCCESS| == 9
  {
  }
}
