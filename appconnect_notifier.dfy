/**
 * The appconnect notifier (`AppConnectNotifier`): a post-build step that, unless the build failed,
 * uploads one artifact per configured name. All uploads share one multipart body: the token part is
 * added once, and each configured artifact appends its part before the body is posted to that
 * configuration's url, so the k-th request carries the token and the first k + 1 artifacts.
 *
 * The loop is specified as a left fold of `Step` over the configurations (`Iterate`); the class's
 * `Perform` method runs the loop over a real builder and is proved to follow that fold.
 */
module AppConnect {
  import opened Common
  import opened Host
  import opened Artifacts
  import opened Multipart

  /** One configured upload: the glob naming the artifact and the endpoint it is posted to. */
  datatype ArtifactConfig = ArtifactConfig(name: string, url: string)

  /** A request posted by the loop: its url and the multipart body as built at that moment. */
  datatype UploadRequest = UploadRequest(url: string, parts: seq<Part>)

  /**
   * What escapes `perform`: the exception for an unsuccessful reply, which records the url and the
   * code its message names, or an I/O failure of the transport or of the copy.
   */
  datatype AppError = AppConnectException(url: string, code: int) | TransportIOException | CopyIOException

  /** How `perform` ends: it returns a value or throws. */
  datatype Outcome = Returned(value: bool) | Thrown(error: AppError)

  /** The build as `perform` sees it: its result and its workspace. */
  datatype Build = Build(result: BuildResult, workspace: Node)

  /**
   * What the loop gets from outside, per iteration index: whether copying the artifact succeeds and
   * what the endpoint answers. `compile(p)` is the `PathMatcher` for "glob:" + p.
   */
  datatype Env = Env(compile: string -> (string -> bool), copy: nat -> CopyOutcome, reply: nat -> Exchange)

  const TOKEN_PART: string := "token"
  const ARTIFACT_PART: string := "artifact"

  /** `getArtifactConfigList`: a null list reads as empty. */
  function GetArtifactConfigList(configs: Option<seq<ArtifactConfig>>): (r: seq<ArtifactConfig>)
    ensures configs.None? ==> r == []
    ensures configs.Some? ==> r == configs.value
  {
    if configs.None? then [] else configs.value
  }

  // ---------------------------------------------------------------------------------------------
  // Artifact resolution with its log (the appconnect copy of `getArtifact` / `getArtifacts`)

  /** The messages the step writes to the build log, before they are rendered as text. */
  datatype Message =
    | CannotSendFailed
    | NoneConfigured
    | PathMatches(path: string)
    | MultipleFound(name: string)
    | NoneFound(name: string)
    | BeingSent(file: string)
    | WasInterrupted
    | Scheduled

  /**
   * The text each message writes: the two early exits use `format`, which adds no line break;
   * every other message is printed with `println`.
   */
  function Write(m: Message): string
  {
    match m
    case CannotSendFailed => "Cannot send artifacts from failed build."
    case NoneConfigured => "No artifacts configured."
    case PathMatches(path) => "Path " + path + " matches." + "\n"
    case MultipleFound(name) => "Multiple artifacts found for name " + name + "\n"
    case NoneFound(name) => "No artifacts found for name " + name + "\n"
    case BeingSent(file) => "Artifact " + file + " being sent to Incapptic Appconnect" + "\n"
    case WasInterrupted => "Interrupted." + "\n"
    case Scheduled => "Artifacts scheduled in Incapptic Appconnect" + "\n"
  }

  /** Prints one message on the listener's stream, with `println` or `format` as its text requires. */
  method Log(listener: PrintStream, m: Message)
    modifies listener
    ensures listener.writes == old(listener.writes) + [Write(m)]
  {
    match m {
      case CannotSendFailed => listener.Format("Cannot send artifacts from failed build.");
      case NoneConfigured => listener.Format("No artifacts configured.");
      case PathMatches(path) => listener.Println("Path " + path + " matches.");
      case MultipleFound(name) => listener.Println("Multiple artifacts found for name " + name);
      case NoneFound(name) => listener.Println("No artifacts found for name " + name);
      case BeingSent(file) => listener.Println("Artifact " + file + " being sent to Incapptic Appconnect");
      case WasInterrupted => listener.Println("Interrupted.");
      case Scheduled => listener.Println("Artifacts scheduled in Incapptic Appconnect");
    }
  }

  /** The texts a sequence of messages writes, in order. */
  function Writes(ms: seq<Message>): seq<string>
  {
    if ms == [] then [] else [Write(ms[0])] + Writes(ms[1..])
  }

  lemma {:induction false} WritesAppend(a: seq<Message>, b: seq<Message>)
    ensures Writes(a + b) == Writes(a) + Writes(b)
  {
    if a == [] {
      assert a + b == b;
    } else {
      assert (a + b)[0] == a[0];
      assert (a + b)[1..] == a[1..] + b;
      WritesAppend(a[1..], b);
    }
  }

  /** Writing one more message after earlier output extends it by that message's text alone. */
  lemma WrittenAfter(before: seq<string>, ms: seq<Message>, m: Message)
    ensures (before + Writes(ms)) + [Write(m)] == before + Writes(ms + [m])
  {
    WritesAppend(ms, [m]);
    assert Writes([m]) == [Write(m)] + Writes([]);
  }

  /** What the walk prints: one "Path … matches." message per collected file, in walk order. */
  function Matched(cs: seq<Candidate>): seq<Message>
  {
    if cs == [] then [] else [PathMatches(cs[0].path)] + Matched(cs[1..])
  }

  lemma {:induction false} MatchedAppend(a: seq<Candidate>, b: seq<Candidate>)
    ensures Matched(a + b) == Matched(a) + Matched(b)
  {
    if a == [] {
      assert a + b == b;
    } else {
      assert (a + b)[0] == a[0];
      assert (a + b)[1..] == a[1..] + b;
      MatchedAppend(a[1..], b);
    }
  }

  /** The walk prints exactly one message per file it collects, naming the path the matcher accepted. */
  lemma {:induction false} MatchedOnePerFile(cs: seq<Candidate>)
    ensures |Matched(cs)| == |cs|
    ensures forall k :: 0 <= k < |cs| ==> Matched(cs)[k] == PathMatches(cs[k].path)
  {
    if cs != [] {
      MatchedOnePerFile(cs[1..]);
      assert forall k :: 1 <= k < |cs| ==> cs[k] == cs[1..][k - 1];
    }
  }

  /**
   * `getArtifacts`: the same depth-first walk as the connect notifier's, which also prints each
   * accepted path to the build log as it appends the file.
   */
  method GetArtifacts(parent: Node, base: string, matcher: string -> bool, artifacts: seq<Candidate>, logger: PrintStream)
    returns (collected: seq<Candidate>)
    modifies logger
    ensures var m := Matching(Candidates(Children(parent), base), matcher);
            collected == artifacts + m && logger.writes == old(logger.writes) + Writes(Matched(m))
    decreases parent
  {
    collected := artifacts;
    var children := Children(parent);
    ghost var found: seq<Candidate> := [];
    for i := 0 to |children|
      invariant found == Matching(Candidates(children[..i], base), matcher)
      invariant collected == artifacts + found
      invariant logger.writes == old(logger.writes) + Writes(Matched(found))
    {
      var child := children[i];
      WalkStep(children, i, base, matcher);
      ghost var added: seq<Candidate>;
      if child.Directory? {
        assert child in parent.children;
        added := Matching(Candidates(child.children, SubBase(base, child.name)), matcher);
        collected := GetArtifacts(child, SubBase(base, child.name), matcher, collected, logger);
        MatchedAppend(found, added);
        WritesAppend(Matched(found), Matched(added));
        AppendAssoc(old(logger.writes), Writes(Matched(found)), Writes(Matched(added)));
      } else {
        var path := JoinPath(base, child.file.name);
        if matcher(path) {
          Log(logger, PathMatches(path));
          collected := collected + [Candidate(path, child.file)];
          added := [Candidate(path, child.file)];
          MatchedAppend(found, added);
          assert Matched(added) == [PathMatches(path)] + Matched([]) == [PathMatches(path)];
          WrittenAfter(old(logger.writes), Matched(found), PathMatches(path));
        } else {
          added := [];
          assert found + added == found;
        }
      }
      AppendAssoc(artifacts, found, added);
      found := found + added;
    }
    assert children[..|children|] == children;
  }

  /** `getArtifact`: walks from the workspace root with an empty base, then classifies the count. */
  method GetArtifact(workspace: Node, glob: string, compile: string -> (string -> bool), logger: PrintStream)
    returns (r: Resolution)
    modifies logger
    ensures r == Select(Found(workspace, compile(glob)))
    ensures logger.writes == old(logger.writes) + Writes(Matched(Found(workspace, compile(glob))))
  {
    var artifacts := GetArtifacts(workspace, "", compile(glob), [], logger);
    if |artifacts| == 0 {
      r := Unresolved(ArtifactsNotFound);
    } else if |artifacts| > 1 {
      r := Unresolved(MultipleArtifacts);
    } else {
      r := Resolved(artifacts[0]);
    }
  }

  // ---------------------------------------------------------------------------------------------
  // The upload loop

  /**
   * What one pass of the loop body does, whatever the builder already holds: the url it posts to,
   * the artifact part it adds (and then posts the whole body with), what it logs, and, when the
   * pass ends `perform`, how.
   */
  datatype PassResult = PassResult(target: string, added: Option<Part>, log: seq<Message>, done: Option<Outcome>)

  /** The loop body for the configuration at index `i`. */
  function Pass(ac: ArtifactConfig, i: nat, workspace: Node, env: Env): PassResult
  {
    var found := Found(workspace, env.compile(ac.name));
    var matched := Matched(found);
    match Select(found)
    case Unresolved(MultipleArtifacts) => PassResult(ac.url, None, matched + [MultipleFound(ac.name)], Some(Returned(true)))
    case Unresolved(ArtifactsNotFound) => PassResult(ac.url, None, matched + [NoneFound(ac.name)], Some(Returned(true)))
    case Resolved(c) =>
      var announced := matched + [BeingSent(c.file.name)];
      match env.copy(i)
      case CopyFailed => PassResult(ac.url, None, announced, Some(Thrown(CopyIOException)))
      case CopyInterrupted => PassResult(ac.url, None, announced + [WasInterrupted], Some(Returned(true)))
      case Copied =>
        var part := Some(FormFile(ARTIFACT_PART, c.file.name, c.file.contents));
        match env.reply(i)
        case TransportFailure => PassResult(ac.url, part, announced, Some(Thrown(TransportIOException)))
        case Replied(response) =>
          if response.successful then PassResult(ac.url, part, announced, None)
          else PassResult(ac.url, part, announced, Some(Thrown(AppConnectException(ac.url, response.code))))
  }

  /** The configuration at index `i` goes all the way: one artifact, copied, and accepted by its endpoint. */
  predicate Succeeds(ac: ArtifactConfig, i: nat, workspace: Node, env: Env)
  {
    Select(Found(workspace, env.compile(ac.name))).Resolved? && env.copy(i) == Copied &&
    env.reply(i).Replied? && env.reply(i).response.successful
  }

  /**
   * What every pass guarantees: one that lets the loop go on has posted; what it adds is an
   * "artifact" file part; and one that ends `perform` normally returns true.
   */
  predicate WellFormed(p: PassResult)
  {
    (p.done.None? ==> p.added.Some?) &&
    (p.added.Some? ==> p.added.value.FormFile? && p.added.value.name == ARTIFACT_PART) &&
    (p.done.Some? && p.done.value.Returned? ==> p.done.value.value)
  }

  /**
   * What the pass for the configuration at index `i` must be, stated from the configuration's
   * outcome rather than from the loop body: it posts to the configuration's url; it adds a part
   * exactly when the glob matched one file and the copy worked, and the part then carries that
   * file's name and bytes; it lets the loop go on exactly when the configuration succeeds; and a
   * pass that ends `perform` ends it as follows. No match or several matches, and an interrupted
   * copy, return true; a failed copy and a failed exchange escape as I/O exceptions; a reply that
   * is not successful escapes as the `AppConnectException` naming the url and the reply's code.
   * What the pass logs: nothing found logs only "No artifacts found"; several files log their
   * "matches" lines and then "Multiple artifacts found"; the one file logs its "matches" line and
   * "being sent", then "Interrupted." if the copy was interrupted. A pass never logs "scheduled".
   */
  predicate Conforms(p: PassResult, ac: ArtifactConfig, i: nat, workspace: Node, env: Env)
  {
    var found := Found(workspace, env.compile(ac.name));
    p.target == ac.url &&
    (p.added.Some? <==> |found| == 1 && env.copy(i) == Copied) &&
    (p.added.Some? ==> p.added.value == FormFile(ARTIFACT_PART, found[0].file.name, found[0].file.contents)) &&
    (p.done.None? <==> Succeeds(ac, i, workspace, env)) &&
    (|found| != 1 ==> p.done == Some(Returned(true))) &&
    (|found| == 1 && env.copy(i) == CopyInterrupted ==> p.done == Some(Returned(true))) &&
    (|found| == 1 && env.copy(i) == CopyFailed ==> p.done == Some(Thrown(CopyIOException))) &&
    (p.added.Some? && env.reply(i).TransportFailure? ==> p.done == Some(Thrown(TransportIOException))) &&
    (p.added.Some? && env.reply(i).Replied? && !env.reply(i).response.successful ==>
       p.done == Some(Thrown(AppConnectException(ac.url, env.reply(i).response.code)))) &&
    (|found| == 0 ==> p.log == [NoneFound(ac.name)]) &&
    (|found| > 1 ==> p.log == Matched(found) + [MultipleFound(ac.name)]) &&
    (|found| == 1 ==>
       p.log == [PathMatches(found[0].path), BeingSent(found[0].file.name)] +
                (if env.copy(i) == CopyInterrupted then [WasInterrupted] else [])) &&
    Scheduled !in p.log
  }

  /** The loop body for a configuration conforms to that configuration's outcome, and is well formed. */
  lemma PassSpec(ac: ArtifactConfig, i: nat, workspace: Node, env: Env)
    ensures Conforms(Pass(ac, i, workspace, env), ac, i, workspace, env)
    ensures WellFormed(Pass(ac, i, workspace, env))
  {
    var found := Found(workspace, env.compile(ac.name));
    MatchedOnePerFile(found);
  }

  /** The passes of the loop, one per configuration, in order. */
  function Passes(configs: seq<ArtifactConfig>, workspace: Node, env: Env): (passes: seq<PassResult>)
    ensures |passes| == |configs|
  {
    if configs == [] then []
    else
      var last := |configs| - 1;
      Passes(configs[..last], workspace, env) + [Pass(configs[last], last, workspace, env)]
  }

  /** The pass at index `k` is the loop body for the configuration at index `k`. */
  lemma {:induction false} PassAt(configs: seq<ArtifactConfig>, workspace: Node, env: Env, k: nat)
    requires k < |configs|
    ensures Passes(configs, workspace, env)[k] == Pass(configs[k], k, workspace, env)
  {
    var last := |configs| - 1;
    var prefix := Passes(configs[..last], workspace, env);
    assert Passes(configs, workspace, env) == prefix + [Pass(configs[last], last, workspace, env)];
    if k < last {
      PassAt(configs[..last], workspace, env, k);
      assert configs[..last][k] == configs[k];
    }
  }

  /**
   * `passes` holds, at each index, the pass of the configuration at that index. The quantifier
   * fires only on a `Pass` term, so a proof that never names one does not unfold the passes.
   */
  predicate PassesOf(passes: seq<PassResult>, configs: seq<ArtifactConfig>, workspace: Node, env: Env)
  {
    |passes| == |configs| &&
    forall k: nat {:trigger Pass(configs[k], k, workspace, env)} ::
      k < |configs| ==> passes[k] == Pass(configs[k], k, workspace, env)
  }

  lemma PassesListed(configs: seq<ArtifactConfig>, workspace: Node, env: Env)
    ensures PassesOf(Passes(configs, workspace, env), configs, workspace, env)
  {
    forall k: nat | k < |configs|
      ensures Passes(configs, workspace, env)[k] == Pass(configs[k], k, workspace, env)
    {
      PassAt(configs, workspace, env, k);
    }
  }

  predicate AllWellFormed(passes: seq<PassResult>)
  {
    forall k :: 0 <= k < |passes| ==> WellFormed(passes[k])
  }

  /** Every pass of the loop is well formed and conforms to the outcome of the configuration at its index. */
  lemma PassesSpec(configs: seq<ArtifactConfig>, workspace: Node, env: Env)
    ensures var passes := Passes(configs, workspace, env);
            |passes| == |configs| && AllWellFormed(passes) &&
            forall k :: 0 <= k < |configs| ==> Conforms(passes[k], configs[k], k, workspace, env)
  {
    var passes := Passes(configs, workspace, env);
    forall k | 0 <= k < |configs|
      ensures WellFormed(passes[k]) && Conforms(passes[k], configs[k], k, workspace, env)
    {
      PassAt(configs, workspace, env, k);
      PassSpec(configs[k], k, workspace, env);
    }
  }

  /**
   * The loop's state: the parts of the shared builder, the requests posted so far, the messages
   * logged, and, once an iteration has ended `perform`, how it ended.
   */
  datatype State = State(parts: seq<Part>, sent: seq<UploadRequest>, log: seq<Message>, done: Option<Outcome>)

  /** The state before the loop: the builder holds only the token part. */
  function Initial(token: string): State
  {
    State([FormField(TOKEN_PART, token)], [], [], None)
  }

  /**
   * One iteration: a pass that adds a part appends it to the shared builder and posts the whole
   * body so far to its url; a finished state stays as it is.
   */
  function Step(st: State, p: PassResult): State
  {
    if st.done.Some? then st
    else if p.added.None? then State(st.parts, st.sent, st.log + p.log, p.done)
    else
      var parts := st.parts + [p.added.value];
      State(parts, st.sent + [UploadRequest(p.target, parts)], st.log + p.log, p.done)
  }

  /** The state after the first `n` iterations. */
  function Iterate(init: State, passes: seq<PassResult>, n: nat): State
    requires n <= |passes|
  {
    if n == 0 then init else Step(Iterate(init, passes, n - 1), passes[n - 1])
  }

  /** How `perform` ends, the requests it posted, and what it logged. */
  datatype Trace = Trace(outcome: Outcome, sent: seq<UploadRequest>, log: seq<Message>)

  /** `perform(build, launcher, listener)`. */
  function PerformSpec(token: string, configs: Option<seq<ArtifactConfig>>, build: Build, env: Env): Trace
  {
    if IsWorseOrEqualTo(build.result, Failure) then Trace(Returned(true), [], [CannotSendFailed])
    else
      var list := GetArtifactConfigList(configs);
      if |list| == 0 then Trace(Returned(true), [], [NoneConfigured])
      else
        var st := Iterate(Initial(token), Passes(list, build.workspace, env), |list|);
        if st.done.Some? then Trace(st.done.value, st.sent, st.log)
        else Trace(Returned(true), st.sent, st.log + [Scheduled])
  }

  /** Once an iteration has ended `perform`, the remaining passes change nothing. */
  lemma {:induction false} StoppedStays(init: State, passes: seq<PassResult>, i: nat, j: nat)
    requires i <= j <= |passes|
    requires Iterate(init, passes, i).done.Some?
    ensures Iterate(init, passes, j) == Iterate(init, passes, i)
    decreases j
  {
    if j > i {
      StoppedStays(init, passes, i, j - 1);
    }
  }

  /** The loop has not ended after `n` iterations exactly when none of the first `n` passes ended it. */
  lemma {:induction false} RunningIffAllContinue(init: State, passes: seq<PassResult>, n: nat)
    requires n <= |passes|
    ensures Iterate(init, passes, n).done.None? <==>
            init.done.None? && forall k :: 0 <= k < n ==> passes[k].done.None?
  {
    if n > 0 {
      RunningIffAllContinue(init, passes, n - 1);
      assert (forall k :: 0 <= k < n ==> passes[k].done.None?) <==>
             (forall k :: 0 <= k < n - 1 ==> passes[k].done.None?) && passes[n - 1].done.None?;
    }
  }

  /**
   * At most one request is posted per iteration, exactly one while the loop goes on, and the k-th
   * request went to the k-th pass's url.
   */
  lemma {:induction false} OnePostPerPass(token: string, passes: seq<PassResult>, n: nat)
    requires n <= |passes| && AllWellFormed(passes)
    ensures var st := Iterate(Initial(token), passes, n);
            |st.sent| <= n && (st.done.None? ==> |st.sent| == n) &&
            forall k :: 0 <= k < |st.sent| ==> st.sent[k].url == passes[k].target
  {
    if n > 0 {
      OnePostPerPass(token, passes, n - 1);
      assert WellFormed(passes[n - 1]);
    }
  }

  /**
   * The shape of the shared body after any number of iterations: the token part first, then only
   * "artifact" parts, one per request posted, and the k-th request carried the body as it stood
   * after its own artifact was added, the token and k + 1 artifacts.
   */
  predicate Accumulated(st: State, token: string)
  {
    |st.parts| == |st.sent| + 1 &&
    st.parts[0] == FormField(TOKEN_PART, token) &&
    (forall k :: 1 <= k < |st.parts| ==> st.parts[k].FormFile? && st.parts[k].name == ARTIFACT_PART) &&
    (forall k :: 0 <= k < |st.sent| ==> st.sent[k].parts == st.parts[..k + 2])
  }

  /** One iteration keeps the shape: a request adds one artifact part and carries the whole new body. */
  lemma AccumulatedStep(st: State, token: string, p: PassResult)
    requires Accumulated(st, token) && WellFormed(p)
    ensures Accumulated(Step(st, p), token)
  {
    var next := Step(st, p);
    if st.done.None? && p.added.Some? {
      var k := |st.sent|;
      forall j | 0 <= j < |next.sent| ensures next.sent[j].parts == next.parts[..j + 2] {
        if j < k {
          assert next.sent[j] == st.sent[j];
          assert next.parts[..j + 2] == st.parts[..j + 2];
        } else {
          assert next.parts[..j + 2] == next.parts;
        }
      }
    }
  }

  lemma {:induction false} IterateAccumulates(token: string, passes: seq<PassResult>, n: nat)
    requires n <= |passes| && AllWellFormed(passes)
    ensures Accumulated(Iterate(Initial(token), passes, n), token)
  {
    if n > 0 {
      IterateAccumulates(token, passes, n - 1);
      AccumulatedStep(Iterate(Initial(token), passes, n - 1), token, passes[n - 1]);
    }
  }

  /**
   * The parts after the token are the parts the passes added, in order: the k-th request is the
   * first one posted with the k-th pass's artifact, so part k + 1 is that artifact.
   */
  lemma {:induction false} IterateParts(token: string, passes: seq<PassResult>, n: nat)
    requires n <= |passes| && AllWellFormed(passes)
    ensures var st := Iterate(Initial(token), passes, n);
            |st.sent| <= n && |st.parts| == |st.sent| + 1 &&
            forall j :: 0 <= j < |st.sent| ==> passes[j].added.Some? && st.parts[j + 1] == passes[j].added.value
  {
    if n > 0 {
      var prev := Iterate(Initial(token), passes, n - 1);
      IterateParts(token, passes, n - 1);
      OnePostPerPass(token, passes, n - 1);
      var p := passes[n - 1];
      if prev.done.None? && p.added.Some? {
        StepOfRunning(prev, p);
        assert |prev.sent| == n - 1;
      }
    }
  }

  /** Every way the loop ends `perform` normally returns true. */
  lemma {:induction false} ReturnsAreTrue(init: State, passes: seq<PassResult>, n: nat)
    requires n <= |passes| && AllWellFormed(passes)
    requires init.done.None?
    ensures var st := Iterate(init, passes, n);
            st.done.Some? && st.done.value.Returned? ==> st.done.value.value
  {
    if n > 0 {
      ReturnsAreTrue(init, passes, n - 1);
      assert WellFormed(passes[n - 1]);
    }
  }

  /** The messages of the given passes, one pass after the other. */
  function PassLogs(passes: seq<PassResult>): seq<Message>
  {
    if passes == [] then [] else PassLogs(passes[..|passes| - 1]) + passes[|passes| - 1].log
  }

  /** A message none of the passes logs is not in their combined log. */
  lemma {:induction false} NotInPassLogs(passes: seq<PassResult>, m: Message)
    requires forall j :: 0 <= j < |passes| ==> m !in passes[j].log
    ensures m !in PassLogs(passes)
  {
    if passes != [] {
      var last := |passes| - 1;
      NotInPassLogs(passes[..last], m);
    }
  }

  /**
   * While every pass but possibly the last of the first `n` has let the loop go on, the loop's log
   * is the logs of those `n` passes, in order.
   */
  lemma {:induction false} RunningLog(token: string, passes: seq<PassResult>, n: nat)
    requires n <= |passes|
    requires forall j :: 0 <= j < n - 1 ==> passes[j].done.None?
    ensures Iterate(Initial(token), passes, n).log == PassLogs(passes[..n])
    ensures n > 0 ==> Iterate(Initial(token), passes, n).done == passes[n - 1].done
  {
    if n > 0 {
      RunningLog(token, passes, n - 1);
      RunningIffAllContinue(Initial(token), passes, n - 1);
      assert passes[..n][..n - 1] == passes[..n - 1];
    }
  }

  /** A loop that ran through has logged the logs of all its passes, in order. */
  lemma CompletedLog(token: string, passes: seq<PassResult>)
    requires Iterate(Initial(token), passes, |passes|).done.None?
    ensures Iterate(Initial(token), passes, |passes|).log == PassLogs(passes)
  {
    RunningIffAllContinue(Initial(token), passes, |passes|);
    RunningLog(token, passes, |passes|);
    assert passes[..|passes|] == passes;
  }

  /**
   * When pass k is the first that ends `perform`, the loop ends as that pass does, having posted
   * once for each earlier pass and once more if pass k added its part.
   */
  lemma FirstStopEnds(token: string, passes: seq<PassResult>, k: nat)
    requires k < |passes| && AllWellFormed(passes)
    requires (forall j :: 0 <= j < k ==> passes[j].done.None?) && passes[k].done.Some?
    ensures var st := Iterate(Initial(token), passes, |passes|);
            st.done == passes[k].done && |st.sent| == k + (if passes[k].added.Some? then 1 else 0)
  {
    var init := Initial(token);
    RunningIffAllContinue(init, passes, k);
    OnePostPerPass(token, passes, k);
    StoppedStays(init, passes, k + 1, |passes|);
  }

  /** One iteration of a running loop, spelled out: what it adds to the builder, the requests and the log. */
  lemma StepOfRunning(st: State, p: PassResult)
    requires st.done.None?
    ensures var next := Step(st, p);
            next.parts == st.parts + (if p.added.Some? then [p.added.value] else []) &&
            next.sent == st.sent + (if p.added.Some? then [UploadRequest(p.target, next.parts)] else []) &&
            next.log == st.log + p.log && next.done == p.done
  {
  }

  /** Writing more messages after earlier output extends it by their texts. */
  lemma WritesThen(before: seq<string>, a: seq<Message>, b: seq<Message>)
    ensures (before + Writes(a)) + Writes(b) == before + Writes(a + b)
  {
    WritesAppend(a, b);
    AppendAssoc(before, Writes(a), Writes(b));
  }

  predicate IsPrefixOf(p: seq<Part>, s: seq<Part>)
  {
    |p| <= |s| && s[..|p|] == p
  }

  /** A failed build, or a configuration list that is null or empty, logs one line, posts nothing and returns true. */
  lemma PerformSkips(token: string, configs: Option<seq<ArtifactConfig>>, build: Build, env: Env)
    requires IsWorseOrEqualTo(build.result, Failure) || GetArtifactConfigList(configs) == []
    ensures PerformSpec(token, configs, build, env) ==
            Trace(Returned(true), [], [if IsWorseOrEqualTo(build.result, Failure) then CannotSendFailed else NoneConfigured])
  {
  }

  /** `perform` never returns false: every way it returns normally returns true. */
  lemma PerformReturnsTrue(token: string, configs: Option<seq<ArtifactConfig>>, build: Build, env: Env)
    ensures var t := PerformSpec(token, configs, build, env);
            t.outcome.Returned? ==> t.outcome.value
  {
    var list := GetArtifactConfigList(configs);
    if !IsWorseOrEqualTo(build.result, Failure) && list != [] {
      PassesSpec(list, build.workspace, env);
      ReturnsAreTrue(Initial(token), Passes(list, build.workspace, env), |list|);
    }
  }

  /** In that shape, every request's body extends the bodies of the requests before it. */
  lemma BodiesExtend(st: State, token: string)
    requires Accumulated(st, token)
    ensures forall k, j :: 0 <= j <= k < |st.sent| ==> IsPrefixOf(st.sent[j].parts, st.sent[k].parts)
  {
    forall k, j | 0 <= j <= k < |st.sent| ensures IsPrefixOf(st.sent[j].parts, st.sent[k].parts) {
      assert st.sent[k].parts[..j + 2] == st.parts[..j + 2];
    }
  }

  /**
   * The requests of the loop after `n` passes: at most one per pass, the k-th to pass k's url with
   * the token part and the parts passes 0 to k added, each body extending the earlier ones.
   */
  lemma LoopRequests(token: string, passes: seq<PassResult>, n: nat)
    requires n <= |passes| && AllWellFormed(passes)
    ensures var st := Iterate(Initial(token), passes, n);
            |st.sent| <= n &&
            forall k :: 0 <= k < |st.sent| ==>
              |st.sent[k].parts| == k + 2 && st.sent[k].parts[0] == FormField(TOKEN_PART, token) &&
              st.sent[k].url == passes[k].target &&
              (forall j :: 0 <= j <= k ==> passes[j].added.Some? && st.sent[k].parts[j + 1] == passes[j].added.value) &&
              forall j :: 0 <= j <= k ==> IsPrefixOf(st.sent[j].parts, st.sent[k].parts)
  {
    var st := Iterate(Initial(token), passes, n);
    OnePostPerPass(token, passes, n);
    IterateAccumulates(token, passes, n);
    IterateParts(token, passes, n);
    BodiesExtend(st, token);
  }

  /**
   * At most one request per configuration is posted, the k-th to the k-th configuration's url,
   * carrying the token part first and then the artifacts the first k + 1 configurations added, in
   * order, so each body extends the ones before.
   */
  lemma PerformRequests(token: string, configs: Option<seq<ArtifactConfig>>, build: Build, env: Env)
    ensures var t := PerformSpec(token, configs, build, env);
            var list := GetArtifactConfigList(configs);
            |t.sent| <= |list| &&
            forall k :: 0 <= k < |t.sent| ==>
              |t.sent[k].parts| == k + 2 && t.sent[k].parts[0] == FormField(TOKEN_PART, token) &&
              t.sent[k].url == list[k].url &&
              (forall j :: 0 <= j <= k ==>
                 Passes(list, build.workspace, env)[j].added.Some? &&
                 t.sent[k].parts[j + 1] == Passes(list, build.workspace, env)[j].added.value) &&
              forall j :: 0 <= j <= k ==> IsPrefixOf(t.sent[j].parts, t.sent[k].parts)
  {
    var list := GetArtifactConfigList(configs);
    if !IsWorseOrEqualTo(build.result, Failure) && list != [] {
      PassesSpec(list, build.workspace, env);
      LoopRequests(token, Passes(list, build.workspace, env), |list|);
    }
  }

  /**
   * The artifact part j + 1 of every request is the file configuration j resolved to, under the
   * part name "artifact".
   */
  lemma PerformSendsResolvedFiles(token: string, configs: Option<seq<ArtifactConfig>>, build: Build, env: Env)
    ensures var t := PerformSpec(token, configs, build, env);
            var list := GetArtifactConfigList(configs);
            |t.sent| <= |list| &&
            forall k, j :: 0 <= j <= k < |t.sent| ==>
              var found := Found(build.workspace, env.compile(list[j].name));
              |found| == 1 && |t.sent[k].parts| == k + 2 && t.sent[k].parts[j + 1] == FormFile(ARTIFACT_PART, found[0].file.name, found[0].file.contents)
  {
    var list := GetArtifactConfigList(configs);
    PerformRequests(token, configs, build, env);
    PassesSpec(list, build.workspace, env);
  }

  /** When pass k is the first that ends `perform`, the loop has logged what passes 0 to k logged. */
  lemma {:induction false} FirstStopLog(token: string, passes: seq<PassResult>, k: nat)
    requires k < |passes|
    requires (forall j :: 0 <= j < k ==> passes[j].done.None?) && passes[k].done.Some?
    ensures Iterate(Initial(token), passes, |passes|).log == PassLogs(passes[..k + 1])
  {
    var init := Initial(token);
    RunningLog(token, passes, k + 1);
    StoppedStays(init, passes, k + 1, |passes|);
  }

  /**
   * When configuration k is the first that does not succeed, `perform` ends the way its pass ends
   * (see `Conforms`: true for no or several matches and for an interrupted copy, an exception
   * otherwise), after posting one request per earlier configuration and one more exactly when
   * configuration k's artifact was added before its exchange failed or was refused. It has
   * logged what configurations 0 to k logged and nothing else: not the "scheduled" line.
   */
  lemma PerformStopsAt(token: string, configs: Option<seq<ArtifactConfig>>, build: Build, env: Env, k: nat)
    requires !IsWorseOrEqualTo(build.result, Failure)
    requires k < |GetArtifactConfigList(configs)|
    requires var list := GetArtifactConfigList(configs);
             (forall j :: 0 <= j < k ==> Succeeds(list[j], j, build.workspace, env)) &&
             !Succeeds(list[k], k, build.workspace, env)
    ensures var list := GetArtifactConfigList(configs);
            var p := Pass(list[k], k, build.workspace, env);
            var t := PerformSpec(token, configs, build, env);
            p.done.Some? && t.outcome == p.done.value &&
            |t.sent| == k + (if p.added.Some? then 1 else 0) &&
            t.log == PassLogs(Passes(list, build.workspace, env)[..k + 1]) && Scheduled !in t.log
  {
    var list := GetArtifactConfigList(configs);
    var passes := Passes(list, build.workspace, env);
    PassesSpec(list, build.workspace, env);
    PassAt(list, build.workspace, env, k);
    FirstStopEnds(token, passes, k);
    FirstStopLog(token, passes, k);
    NotInPassLogs(passes[..k + 1], Scheduled);
  }

  /**
   * In particular, a configuration whose artifact was posted but refused by its endpoint, after
   * every earlier configuration succeeded, makes `perform` throw the `AppConnectException` for
   * that url and code: the exception is not one of those the loop catches.
   */
  lemma RefusalEscapes(token: string, configs: Option<seq<ArtifactConfig>>, build: Build, env: Env, k: nat)
    requires !IsWorseOrEqualTo(build.result, Failure)
    requires k < |GetArtifactConfigList(configs)|
    requires var list := GetArtifactConfigList(configs);
             (forall j :: 0 <= j < k ==> Succeeds(list[j], j, build.workspace, env)) &&
             |Found(build.workspace, env.compile(list[k].name))| == 1 && env.copy(k) == Copied &&
             env.reply(k).Replied? && !env.reply(k).response.successful
    ensures var t := PerformSpec(token, configs, build, env);
            t.outcome == Thrown(AppConnectException(GetArtifactConfigList(configs)[k].url, env.reply(k).response.code)) &&
            |t.sent| == k + 1
  {
    var list := GetArtifactConfigList(configs);
    PassSpec(list[k], k, build.workspace, env);
    PerformStopsAt(token, configs, build, env, k);
  }

  /**
   * Over a non-empty list after a build that did not fail, the loop runs through exactly when every
   * configuration succeeds; it has then posted one request per configuration, and `perform` logs
   * the "scheduled" line and returns true.
   */
  lemma PerformCompletes(token: string, configs: Option<seq<ArtifactConfig>>, build: Build, env: Env)
    requires !IsWorseOrEqualTo(build.result, Failure) && GetArtifactConfigList(configs) != []
    ensures var list := GetArtifactConfigList(configs);
            var st := Iterate(Initial(token), Passes(list, build.workspace, env), |list|);
            st.done.None? <==> forall k :: 0 <= k < |list| ==> Succeeds(list[k], k, build.workspace, env)
    ensures var list := GetArtifactConfigList(configs);
            var st := Iterate(Initial(token), Passes(list, build.workspace, env), |list|);
            var t := PerformSpec(token, configs, build, env);
            st.done.None? ==>
              t.outcome == Returned(true) && |t.sent| == |list| &&
              t.log == PassLogs(Passes(list, build.workspace, env)) + [Scheduled]
  {
    var list := GetArtifactConfigList(configs);
    var passes := Passes(list, build.workspace, env);
    PassesSpec(list, build.workspace, env);
    RunningIffAllContinue(Initial(token), passes, |list|);
    OnePostPerPass(token, passes, |list|);
    if Iterate(Initial(token), passes, |list|).done.None? {
      CompletedLog(token, passes);
    }
  }

  // ---------------------------------------------------------------------------------------------
  // The notifier

  class AppConnectNotifier {
    const token: string
    const artifactConfigList: Option<seq<ArtifactConfig>>

    constructor (token: string, artifactConfigList: Option<seq<ArtifactConfig>>)
      ensures this.token == token && this.artifactConfigList == artifactConfigList
    {
      this.token := token;
      this.artifactConfigList := artifactConfigList;
    }

    /**
     * The body of `perform`'s loop for the configuration at index `i`: resolve, announce, copy,
     * add the part to the shared builder, post the whole body and check the reply.
     */
    method ProcessConfig(multipart: MultipartBuilder, configs: seq<ArtifactConfig>, i: nat, workspace: Node, env: Env,
                         listener: PrintStream, ghost passes: seq<PassResult>)
      returns (request: Option<UploadRequest>, done: Option<Outcome>)
      requires i < |configs| && PassesOf(passes, configs, workspace, env)
      modifies multipart, listener
      ensures var p := passes[i];
              multipart.parts == old(multipart.parts) + (if p.added.Some? then [p.added.value] else []) &&
              request == (if p.added.Some? then Some(UploadRequest(p.target, multipart.parts)) else None) &&
              done == p.done && listener.writes == old(listener.writes) + Writes(p.log)
    {
      assert passes[i] == Pass(configs[i], i, workspace, env);
      var ac := configs[i];
      request := None;
      var r := GetArtifact(workspace, ac.name, env.compile, listener);
      ghost var log := Matched(Found(workspace, env.compile(ac.name)));
      match r {
        case Unresolved(MultipleArtifacts) =>
          Log(listener, MultipleFound(ac.name));
          WrittenAfter(old(listener.writes), log, MultipleFound(ac.name));
          done := Some(Returned(true));
        case Unresolved(ArtifactsNotFound) =>
          Log(listener, NoneFound(ac.name));
          WrittenAfter(old(listener.writes), log, NoneFound(ac.name));
          done := Some(Returned(true));
        case Resolved(artifact) =>
          Log(listener, BeingSent(artifact.file.name));
          WrittenAfter(old(listener.writes), log, BeingSent(artifact.file.name));
          log := log + [BeingSent(artifact.file.name)];
          match env.copy(i) {
            case CopyFailed =>
              done := Some(Thrown(CopyIOException));
            case CopyInterrupted =>
              Log(listener, WasInterrupted);
              WrittenAfter(old(listener.writes), log, WasInterrupted);
              done := Some(Returned(true));
            case Copied =>
              multipart.AddFormDataPart(FormFile(ARTIFACT_PART, artifact.file.name, artifact.file.contents));
              request := Some(UploadRequest(ac.url, multipart.Build()));
              match env.reply(i) {
                case TransportFailure =>
                  done := Some(Thrown(TransportIOException));
                case Replied(response) =>
                  if response.successful {
                    done := None;
                  } else {
                    done := Some(Thrown(AppConnectException(ac.url, response.code)));
                  }
              }
          }
      }
    }

    /**
     * `perform`'s loop over a non-empty configuration list, the builder holding the token part:
     * stops at the first configuration that ends `perform`, and reports how, or runs through.
     */
    method UploadAll(multipart: MultipartBuilder, configs: seq<ArtifactConfig>, workspace: Node, env: Env, listener: PrintStream,
                     ghost passes: seq<PassResult>)
      returns (done: Option<Outcome>, sent: seq<UploadRequest>)
      requires multipart.parts == Initial(token).parts && PassesOf(passes, configs, workspace, env)
      modifies multipart, listener
      ensures var st := Iterate(Initial(token), passes, |configs|);
              done == st.done && sent == st.sent && multipart.parts == st.parts && listener.writes == old(listener.writes) + Writes(st.log)
    {
      ghost var init := Initial(token);
      ghost var st := init;
      sent := [];
      for i := 0 to |configs|
        invariant st == Iterate(init, passes, i)
        invariant st.done.None? && st.parts == multipart.parts && st.sent == sent
        invariant listener.writes == old(listener.writes) + Writes(st.log)
      {
        ghost var p := passes[i];
        var request;
        request, done := ProcessConfig(multipart, configs, i, workspace, env, listener, passes);
        if request.Some? {
          sent := sent + [request.value];
        }
        StepOfRunning(st, p);
        WritesThen(old(listener.writes), st.log, p.log);
        st := Step(st, p);
        if done.Some? {
          StoppedStays(init, passes, i + 1, |configs|);
          return;
        }
      }
      done := None;
    }

    /**
     * `perform`: returns how the step ends and the requests it posted, in order, and writes its
     * messages to the listener's stream.
     */
    method Perform(build: Build, env: Env, listener: PrintStream) returns (outcome: Outcome, sent: seq<UploadRequest>)
      modifies listener
      ensures var t := PerformSpec(token, artifactConfigList, build, env);
              outcome == t.outcome && sent == t.sent && listener.writes == old(listener.writes) + Writes(t.log)
    {
      if IsWorseOrEqualTo(build.result, Failure) {
        Log(listener, CannotSendFailed);
        WrittenAfter(old(listener.writes), [], CannotSendFailed);
        return Returned(true), [];
      }
      var multipart := new MultipartBuilder();
      multipart.AddFormDataPart(FormField(TOKEN_PART, token));
      var configs := GetArtifactConfigList(artifactConfigList);
      if |configs| == 0 {
        Log(listener, NoneConfigured);
        WrittenAfter(old(listener.writes), [], NoneConfigured);
        return Returned(true), [];
      }
      var done;
      PassesListed(configs, build.workspace, env);
      done, sent := UploadAll(multipart, configs, build.workspace, env, listener, Passes(configs, build.workspace, env));
      if done.Some? {
        return done.value, sent;
      }
      Log(listener, Scheduled);
      WrittenAfter(old(listener.writes), Iterate(Initial(token), Passes(configs, build.workspace, env), |configs|).log, Scheduled);
      outcome := Returned(true);
    }
  }
}
