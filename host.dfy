/**
 * What the build host (Jenkins) and the JDK hand to the notifiers: the build result, the run's
 * actions and parameters, the console stream, the proxy configuration of the master, and the
 * outcomes of the I/O the notifiers cannot see into (temp-file copy, HTTP exchange).
 */
module Host {
  import opened Common

  /** `hudson.model.Result`, declared from best to worst. */
  datatype BuildResult = Success | Unstable | Failure | NotBuilt | Aborted

  /** The ordinal Jenkins orders results by. */
  function Ordinal(r: BuildResult): nat
  {
    match r
    case Success => 0
    case Unstable => 1
    case Failure => 2
    case NotBuilt => 3
    case Aborted => 4
  }

  /** `Result.isWorseOrEqualTo`. */
  predicate IsWorseOrEqualTo(r: BuildResult, than: BuildResult)
  {
    Ordinal(r) >= Ordinal(than)
  }

  /** The results that keep a notifier from sending anything. */
  lemma FailedResults(r: BuildResult)
    ensures IsWorseOrEqualTo(r, Failure) <==> r in {Failure, NotBuilt, Aborted}
  {
  }

  /** A build parameter; `value` is the `toString()` of `getValue()`, or None when that is null. */
  datatype ParameterValue = ParameterValue(name: string, value: Option<string>)

  /** An action attached to a run: only `ParametersAction`s carry parameters. */
  datatype Action = ParametersAction(parameters: seq<ParameterValue>) | OtherAction

  /** A run as the connect notifier sees it: its result (null while still running) and its actions. */
  datatype Run = Run(result: Option<BuildResult>, actions: seq<Action>)

  /** What copying the artifact to a temporary file and reading it back ends in. */
  datatype CopyOutcome = Copied | CopyFailed | CopyInterrupted

  /** An HTTP response, reduced to what the notifiers look at. */
  datatype Response = Response(successful: bool, code: int, body: string)

  /** Executing one request: either a response arrives or the transport throws an IOException. */
  datatype Exchange = Replied(response: Response) | TransportFailure

  /** `hudson.ProxyConfiguration`, reduced to what identifies the proxy. */
  datatype ProxyConfiguration = ProxyConfiguration(name: string, port: int)

  /** `Jenkins.getInstance()`: absent, or present with a possibly-null proxy configuration. */
  datatype Master = NoInstance | Instance(proxy: Option<ProxyConfiguration>)

  /**
   * A `java.io.PrintStream`, recorded as the sequence of texts written to it; what a reader sees is
   * their concatenation. `hashCode` is the identity hash the logger cache keys
   * on; two distinct streams may share it.
   */
  class PrintStream {
    const hashCode: int
    var writes: seq<string>

    constructor (hashCode: int)
      ensures this.hashCode == hashCode && writes == []
    {
      this.hashCode := hashCode;
      writes := [];
    }

    /** `println(s)`: the text followed by one line break. */
    method Println(s: string)
      modifies this
      ensures writes == old(writes) + [s + "\n"]
    {
      writes := writes + [s + "\n"];
    }

    /** `format(s)` with a format string that holds no conversion: the text, no line break. */
    method Format(s: string)
      modifies this
      ensures writes == old(writes) + [s]
    {
      writes := writes + [s];
    }
  }
}
