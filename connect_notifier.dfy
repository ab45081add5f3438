/**
 * The connect notifier (`ConnectNotifier`): a post-build step that validates its configuration,
 * backfills a missing token from the build parameters, resolves exactly one artifact in the
 * workspace, wraps it in a multipart body under the part name "artifact-<appId>", posts it with
 * the token in the `X-Connect-Token` header, and classifies the reply.
 *
 * Each step is specified by a function (`Validated`, `Assemble`, `ClientProxy`, `Classify`, and
 * `PerformSpec` for the whole step); the class's methods do the work step by step, logging through
 * the cached console logger, and are proved to produce what those functions say.
 */
module Connect {
  import opened Common
  import opened Host
  import opened Artifacts
  import opened Multipart
  import Out = ConnectOutput

  const TOKEN_HEADER_NAME: string := "X-Connect-Token"

  /** The build parameter a missing token is taken from. */
  const TOKEN_PARAMETER: string := "token"

  /** `compile(p)` is the `PathMatcher` that `FileSystems.getDefault()` gives for "glob:" + p. */
  type GlobCompiler = string -> (string -> bool)

  // ---------------------------------------------------------------------------------------------
  // What the step logs

  /** The messages the step hands to its logger, before they are given a severity and a text. */
  datatype Note =
    | ProcessingStarted
    | ValidationStarted
    | CheckFailed(check: Check)
    | ValidationPassed
    | MultipleMatches(mask: string)
    | NoMatches(mask: string)
    | SendingArtifact(name: string)
    | UnreadableArtifact(mask: string)
    | WasInterrupted
    | NoAttachments
    | UsingMasterProxy
    | ProxyConfigured
    | NoProxyInformation
    | IgnoringProxy
    | ExecutingUpload
    | ReplyBody(body: string)
    | AllSent
    | ClientError(url: string, code: int, body: string)
    | ServerError(url: string, code: int)

  /** The logger call each note is made with: `info`, `error` or `success`, and its text. */
  function Entry(n: Note): Out.LogEntry
  {
    match n
    case ProcessingStarted => Out.LogEntry(Out.Info, "Connect plugin is processing build artifacts ")
    case ValidationStarted => Out.LogEntry(Out.Info, "Incapptic Connect Jenkins Validation starting... ")
    case CheckFailed(c) => Out.LogEntry(Out.Error, CheckMessage(c))
    case ValidationPassed =>
      Out.LogEntry(Out.Success, "Incapptic Connect Uploader plugin successfully validated AppId, Token, URL and Binary ")
    case MultipleMatches(mask) => Out.LogEntry(Out.Error, "Multiple artifacts found for name [" + mask + "].")
    case NoMatches(mask) => Out.LogEntry(Out.Error, "No artifacts found for name [" + mask + "].")
    case SendingArtifact(name) => Out.LogEntry(Out.Info, "Artifact " + name + " being sent to Incapptic Connect. ")
    case UnreadableArtifact(mask) => Out.LogEntry(Out.Error, "Could not read attachments for name [" + mask + "].")
    case WasInterrupted => Out.LogEntry(Out.Error, "Interrupted.")
    case NoAttachments => Out.LogEntry(Out.Error, "No attachments created.")
    case UsingMasterProxy => Out.LogEntry(Out.Error, "Using Jenkins Master proxy settings")
    case ProxyConfigured => Out.LogEntry(Out.Info, "Proxy connection configured.")
    case NoProxyInformation => Out.LogEntry(Out.Info, "Jenkins Master instance HAS NO PROXY INFORMATION !!!")
    case IgnoringProxy => Out.LogEntry(Out.Info, "Ignoring the proxy settings")
    case ExecutingUpload => Out.LogEntry(Out.Info, "Executing Upload Request ")
    case ReplyBody(body) => Out.LogEntry(Out.Success, body)
    case AllSent => Out.LogEntry(Out.Success, "All artifacts sent to Connect")
    case ClientError(url, code, body) =>
      Out.LogEntry(Out.Error, "Endpoint " + url + " replied with code " + IntToString(code) + " and message [" + body + "].")
    case ServerError(url, code) => Out.LogEntry(Out.Error, "Endpoint " + url + " replied with code " + IntToString(code) + ".")
  }

  function Entries(ns: seq<Note>): seq<Out.LogEntry>
  {
    if ns == [] then [] else [Entry(ns[0])] + Entries(ns[1..])
  }

  /** The lines a sequence of notes puts on the logger's stream. */
  function Printed(ns: seq<Note>): seq<string>
  {
    Out.Render(Entries(ns))
  }

  lemma {:induction false} EntriesAppend(a: seq<Note>, b: seq<Note>)
    ensures Entries(a + b) == Entries(a) + Entries(b)
  {
    if a == [] {
      assert a + b == b;
    } else {
      assert (a + b)[0] == a[0];
      assert (a + b)[1..] == a[1..] + b;
      EntriesAppend(a[1..], b);
    }
  }

  /** Notes logged after earlier output extend it by their own lines. */
  lemma LoggedAfter(before: seq<string>, a: seq<Note>, b: seq<Note>)
    ensures (before + Printed(a)) + Printed(b) == before + Printed(a + b)
  {
    EntriesAppend(a, b);
    Out.PrintedAfter(before, Entries(a), Entries(b));
  }

  /** Calls the logger method of the entry's severity with the entry's text. */
  method Emit(out: Out.OutputUtils, e: Out.LogEntry)
    modifies out.printStream
    ensures out.printStream.writes == old(out.printStream.writes) + Out.Render([e])
  {
    match e.severity {
      case Info => out.Info(e.message);
      case Error => out.Error(e.message);
      case Success => out.Success(e.message);
    }
  }

  /** One note prints the one line of its entry. */
  lemma PrintedOne(n: Note)
    ensures Printed([n]) == Out.Render([Entry(n)])
  {
    assert Entries([n]) == [Entry(n)] + Entries([]);
  }

  /** Logs one note through the connect logger, with the severity and text `Entry` gives it. */
  method Log(out: Out.OutputUtils, n: Note)
    modifies out.printStream
    ensures out.printStream.writes == old(out.printStream.writes) + Printed([n])
  {
    Emit(out, Entry(n));
    PrintedOne(n);
  }

  // ---------------------------------------------------------------------------------------------
  // Build parameters and the token backfill

  /** The parameters of every `ParametersAction` of a run, in action order. */
  function AllParameters(actions: seq<Action>): seq<ParameterValue>
  {
    if actions == [] then []
    else (if actions[0].ParametersAction? then actions[0].parameters else []) + AllParameters(actions[1..])
  }

  /** The first parameter called `name`, if any. */
  function FirstNamed(ps: seq<ParameterValue>, name: string): Option<ParameterValue>
  {
    if ps == [] then None
    else if ps[0].name == name then Some(ps[0])
    else FirstNamed(ps[1..], name)
  }

  /** `k` is the position of the first parameter called `name`. */
  predicate IsFirstNamed(ps: seq<ParameterValue>, name: string, k: int)
  {
    0 <= k < |ps| && ps[k].name == name && forall j :: 0 <= j < k ==> ps[j].name != name
  }

  /**
   * What `getParameterValue` answers: the value of the first parameter called `name` (null when
   * that parameter's own value is null, even if a later one has a value), or null when there is none.
   */
  function ParameterValueOf(actions: seq<Action>, name: string): Option<string>
  {
    match FirstNamed(AllParameters(actions), name)
    case None => None
    case Some(p) => p.value
  }

  lemma {:induction false} AllParametersAppend(a: seq<Action>, b: seq<Action>)
    ensures AllParameters(a + b) == AllParameters(a) + AllParameters(b)
  {
    if a == [] {
      assert a + b == b;
    } else {
      assert (a + b)[0] == a[0];
      assert (a + b)[1..] == a[1..] + b;
      AllParametersAppend(a[1..], b);
    }
  }

  lemma {:induction false} FirstNamedAppend(a: seq<ParameterValue>, b: seq<ParameterValue>, name: string)
    ensures FirstNamed(a + b, name) == if FirstNamed(a, name).Some? then FirstNamed(a, name) else FirstNamed(b, name)
  {
    if a == [] {
      assert a + b == b;
    } else {
      assert (a + b)[0] == a[0];
      assert (a + b)[1..] == a[1..] + b;
      FirstNamedAppend(a[1..], b, name);
    }
  }

  /**
   * `FirstNamed` finds nothing exactly when no parameter has the name, and otherwise finds the
   * parameter at the first position that has it.
   */
  lemma {:induction false} FirstNamedSpec(ps: seq<ParameterValue>, name: string)
    ensures FirstNamed(ps, name).None? <==> forall k :: 0 <= k < |ps| ==> ps[k].name != name
    ensures FirstNamed(ps, name).Some? ==> exists k :: IsFirstNamed(ps, name, k) && ps[k] == FirstNamed(ps, name).value
  {
    if ps != [] {
      FirstNamedSpec(ps[1..], name);
      if ps[0].name == name {
        assert IsFirstNamed(ps, name, 0);
      } else if FirstNamed(ps[1..], name).Some? {
        var k :| IsFirstNamed(ps[1..], name, k) && ps[1..][k] == FirstNamed(ps[1..], name).value;
        assert IsFirstNamed(ps, name, k + 1);
      } else {
        forall k | 0 <= k < |ps| ensures ps[k].name != name {
          if k > 0 { assert ps[k] == ps[1..][k - 1]; }
        }
      }
    }
  }

  lemma AllParametersOne(a: Action)
    ensures AllParameters([a]) == if a.ParametersAction? then a.parameters else []
  {
    assert [a][1..] == [];
  }

  lemma FirstNamedOne(p: ParameterValue, name: string)
    ensures FirstNamed([p], name) == if p.name == name then Some(p) else None
  {
    assert [p][1..] == [];
  }

  /** Scanning one more parameter without a match keeps "not found so far". */
  lemma ParameterScanned(ps: seq<ParameterValue>, j: nat, name: string)
    requires j < |ps| && FirstNamed(ps[..j], name) == None && ps[j].name != name
    ensures FirstNamed(ps[..j + 1], name) == None
  {
    assert ps[..j + 1] == ps[..j] + [ps[j]];
    FirstNamedAppend(ps[..j], [ps[j]], name);
    FirstNamedOne(ps[j], name);
  }

  /** Scanning one more action without a match keeps "not found so far". */
  lemma ActionScanned(actions: seq<Action>, i: nat, name: string)
    requires i < |actions| && FirstNamed(AllParameters(actions[..i]), name) == None
    requires actions[i].ParametersAction? ==> FirstNamed(actions[i].parameters, name) == None
    ensures FirstNamed(AllParameters(actions[..i + 1]), name) == None
  {
    assert actions[..i + 1] == actions[..i] + [actions[i]];
    AllParametersAppend(actions[..i], [actions[i]]);
    AllParametersOne(actions[i]);
    FirstNamedAppend(AllParameters(actions[..i]), AllParameters([actions[i]]), name);
  }

  /** The first match, found at parameter `j` of action `i` with nothing earlier, is the answer. */
  lemma FoundAt(actions: seq<Action>, i: nat, j: nat, name: string)
    requires i < |actions| && actions[i].ParametersAction? && j < |actions[i].parameters|
    requires FirstNamed(AllParameters(actions[..i]), name) == None
    requires FirstNamed(actions[i].parameters[..j], name) == None && actions[i].parameters[j].name == name
    ensures ParameterValueOf(actions, name) == actions[i].parameters[j].value
  {
    var ps := actions[i].parameters;
    assert ps[..j + 1] == ps[..j] + [ps[j]];
    FirstNamedAppend(ps[..j], [ps[j]], name);
    FirstNamedOne(ps[j], name);
    assert ps == ps[..j + 1] + ps[j + 1..];
    FirstNamedAppend(ps[..j + 1], ps[j + 1..], name);
    assert actions == actions[..i] + [actions[i]] + actions[i + 1..];
    AllParametersAppend(actions[..i] + [actions[i]], actions[i + 1..]);
    AllParametersAppend(actions[..i], [actions[i]]);
    AllParametersOne(actions[i]);
    FirstNamedAppend(AllParameters(actions[..i]), ps, name);
    FirstNamedAppend(AllParameters(actions[..i]) + ps, AllParameters(actions[i + 1..]), name);
  }

  /** `getParameterValue`: scans the actions, and the parameters of each `ParametersAction`, in order. */
  method GetParameterValue(run: Run, name: string) returns (v: Option<string>)
    ensures v == ParameterValueOf(run.actions, name)
  {
    var actions := run.actions;
    for i := 0 to |actions|
      invariant FirstNamed(AllParameters(actions[..i]), name) == None
    {
      if actions[i].ParametersAction? {
        var ps := actions[i].parameters;
        for j := 0 to |ps|
          invariant FirstNamed(ps[..j], name) == None
        {
          if ps[j].name == name {
            FoundAt(actions, i, j, name);
            return ps[j].value;
          }
          ParameterScanned(ps, j, name);
        }
        assert ps[..|ps|] == ps;
      }
      ActionScanned(actions, i, name);
    }
    assert actions[..|actions|] == actions;
    v := None;
  }

  /**
   * `getToken(run)`'s effect on the token field: an empty token (null or "") is replaced by the
   * "token" build parameter when that lookup answers non-null; otherwise the field stays as it is.
   */
  function BackfilledToken(token: Option<string>, actions: seq<Action>): Option<string>
  {
    if IsEmpty(token) then
      var p := ParameterValueOf(actions, TOKEN_PARAMETER);
      if p.Some? then p else token
    else token
  }

  /**
   * A non-empty token is never replaced; a replaced token came from the first parameter named
   * "token"; with no such parameter the token stays; and backfilling twice is backfilling once.
   */
  lemma BackfillSpec(token: Option<string>, actions: seq<Action>)
    ensures !IsEmpty(token) ==> BackfilledToken(token, actions) == token
    ensures BackfilledToken(token, actions) != token ==>
              IsEmpty(token) &&
              exists k :: IsFirstNamed(AllParameters(actions), TOKEN_PARAMETER, k) &&
                          AllParameters(actions)[k].value == BackfilledToken(token, actions)
    ensures (forall k :: 0 <= k < |AllParameters(actions)| ==> AllParameters(actions)[k].name != TOKEN_PARAMETER) ==>
              BackfilledToken(token, actions) == token
    ensures BackfilledToken(BackfilledToken(token, actions), actions) == BackfilledToken(token, actions)
  {
    FirstNamedSpec(AllParameters(actions), TOKEN_PARAMETER);
  }

  // ---------------------------------------------------------------------------------------------
  // Validation

  /** The configuration fields of the notifier other than the token. */
  datatype Settings = Settings(url: Option<string>, appId: Option<int>, mask: Option<string>, useMasterProxy: bool)

  /** The checks `validate` makes, in the order it makes them. */
  datatype Check = FailedBuild | NoAppId | NoMask | NoToken | NoUrl

  function Rank(c: Check): nat
  {
    match c
    case FailedBuild => 0
    case NoAppId => 1
    case NoMask => 2
    case NoToken => 3
    case NoUrl => 4
  }

  function CheckMessage(c: Check): string
  {
    match c
    case FailedBuild => "Cannot send artifacts from failed build."
    case NoAppId => "No appId parameter provided."
    case NoMask => "No mask parameter provided."
    case NoToken => "No token parameter provided."
    case NoUrl => "No url parameter provided."
  }

  /** Whether a check fails on its own; the token check looks at the token after the backfill. */
  predicate Fails(c: Check, s: Settings, token: Option<string>, run: Run)
  {
    match c
    case FailedBuild => run.result.Some? && IsWorseOrEqualTo(run.result.value, Failure)
    case NoAppId => s.appId.None?
    case NoMask => IsEmpty(s.mask)
    case NoToken => IsEmpty(BackfilledToken(token, run.actions))
    case NoUrl => IsEmpty(s.url)
  }

  /** The verdict of `validate` and the token field it leaves behind. */
  datatype Validation = Validation(failure: Option<Check>, token: Option<string>)

  /**
   * `validate`: the first failing check, short-circuiting, or none. The token is backfilled only
   * when the build, appId and mask checks have passed, since `getToken(run)` is reached only then.
   */
  function Validated(s: Settings, token: Option<string>, run: Run): Validation
  {
    if run.result.Some? && IsWorseOrEqualTo(run.result.value, Failure) then Validation(Some(FailedBuild), token)
    else if s.appId.None? then Validation(Some(NoAppId), token)
    else if IsEmpty(s.mask) then Validation(Some(NoMask), token)
    else
      var t := BackfilledToken(token, run.actions);
      if IsEmpty(t) then Validation(Some(NoToken), t)
      else if IsEmpty(s.url) then Validation(Some(NoUrl), t)
      else Validation(None, t)
  }

  /**
   * The reported check is exactly the failing check that every earlier check passes; validation
   * succeeds exactly when no check fails; the token is touched only after the first three pass.
   */
  lemma ValidateReportsFirstFailure(s: Settings, token: Option<string>, run: Run, c: Check)
    ensures Validated(s, token, run).failure == Some(c) <==>
              Fails(c, s, token, run) && forall d :: Rank(d) < Rank(c) ==> !Fails(d, s, token, run)
    ensures Validated(s, token, run).failure.None? <==> forall d :: !Fails(d, s, token, run)
    ensures Validated(s, token, run).token ==
              if Fails(FailedBuild, s, token, run) || Fails(NoAppId, s, token, run) || Fails(NoMask, s, token, run)
              then token else BackfilledToken(token, run.actions)
  {
    var v := Validated(s, token, run);
    if v.failure.None? {
      forall d ensures !Fails(d, s, token, run) {
        match d
        case FailedBuild =>
        case NoAppId =>
        case NoMask =>
        case NoToken =>
        case NoUrl =>
      }
    }
    assert (!Fails(FailedBuild, s, token, run) && !Fails(NoAppId, s, token, run) && !Fails(NoMask, s, token, run) &&
            !Fails(NoToken, s, token, run) && !Fails(NoUrl, s, token, run)) ==> v.failure.None?;
    forall d | Rank(d) < Rank(c) && Validated(s, token, run).failure == Some(c)
      ensures !Fails(d, s, token, run)
    {
      match d
      case FailedBuild =>
      case NoAppId =>
      case NoMask =>
      case NoToken =>
      case NoUrl =>
    }
  }

  /** Each check reports its own message, so a reader can tell which field was missing. */
  lemma CheckMessagesDistinct(c: Check, d: Check)
    requires c != d
    ensures CheckMessage(c) != CheckMessage(d)
  {
    match c
    case FailedBuild => assert CheckMessage(c)[0] == 'C';
    case NoAppId => assert CheckMessage(c)[3] == 'a';
    case NoMask => assert CheckMessage(c)[3] == 'm';
    case NoToken => assert CheckMessage(c)[3] == 't';
    case NoUrl => assert CheckMessage(c)[3] == 'u';
  }

  /** What `validate` logs: that it starts, then the failing check's message or the success line. */
  function ValidationLog(failure: Option<Check>): seq<Note>
  {
    [ValidationStarted] + if failure.Some? then [CheckFailed(failure.value)] else [ValidationPassed]
  }

  // ---------------------------------------------------------------------------------------------
  // Artifact resolution (the connect copy of `getArtifact` / `getArtifacts`)

  /**
   * `getArtifacts`: walks the children of `parent` in listing order, recursing into directories
   * with the base extended by "/" and the directory's name, and appends each file whose joined
   * path the matcher accepts. It only ever appends.
   */
  method GetArtifacts(parent: Node, base: string, matcher: string -> bool, artifacts: seq<Candidate>)
    returns (collected: seq<Candidate>)
    ensures collected == artifacts + Matching(Candidates(Children(parent), base), matcher)
    decreases parent
  {
    collected := artifacts;
    var children := Children(parent);
    ghost var found: seq<Candidate> := [];
    for i := 0 to |children|
      invariant found == Matching(Candidates(children[..i], base), matcher)
      invariant collected == artifacts + found
    {
      var child := children[i];
      WalkStep(children, i, base, matcher);
      ghost var added: seq<Candidate>;
      if child.Directory? {
        assert child in parent.children;
        added := Matching(Candidates(child.children, SubBase(base, child.name)), matcher);
        collected := GetArtifacts(child, SubBase(base, child.name), matcher, collected);
      } else {
        var path := JoinPath(base, child.file.name);
        if matcher(path) {
          collected := collected + [Candidate(path, child.file)];
          added := [Candidate(path, child.file)];
        } else {
          added := [];
        }
      }
      AppendAssoc(artifacts, found, added);
      found := found + added;
    }
    assert children[..|children|] == children;
  }

  /** `getArtifact`: collects from the workspace root with an empty base, then selects. */
  method GetArtifact(workspace: Node, glob: string, compile: GlobCompiler) returns (r: Resolution)
    ensures r == Select(Found(workspace, compile(glob)))
  {
    var artifacts := GetArtifacts(workspace, "", compile(glob), []);
    if |artifacts| == 0 {
      r := Unresolved(ArtifactsNotFound);
    } else if |artifacts| > 1 {
      r := Unresolved(MultipleArtifacts);
    } else {
      r := Resolved(artifacts[0]);
    }
  }

  // ---------------------------------------------------------------------------------------------
  // The multipart body

  /** `String.format("artifact-%s", appId)`; a null appId would print as "null". */
  function PartName(appId: Option<int>): string
  {
    "artifact-" + if appId.None? then "null" else IntToString(appId.value)
  }

  /** The body `getMultipartBuilder` returns (None for its null) and what it logs. */
  datatype Assembly = Assembly(parts: Option<seq<Part>>, log: seq<Note>)

  /**
   * `getMultipartBuilder`: resolve the artifact for the mask, read it through a temporary copy,
   * and add it as the one file part; any resolution failure, I/O failure or interruption is logged
   * and yields no body.
   */
  function Assemble(s: Settings, workspace: Node, compile: GlobCompiler, copy: CopyOutcome): Assembly
  {
    var mask := Str(s.mask);
    match Select(Found(workspace, compile(mask)))
    case Unresolved(MultipleArtifacts) => Assembly(None, [MultipleMatches(mask)])
    case Unresolved(ArtifactsNotFound) => Assembly(None, [NoMatches(mask)])
    case Resolved(c) =>
      var sending := SendingArtifact(c.file.name);
      match copy
      case CopyFailed => Assembly(None, [sending, UnreadableArtifact(mask)])
      case CopyInterrupted => Assembly(None, [sending, WasInterrupted])
      case Copied => Assembly(Some([FormFile(PartName(s.appId), c.file.name, c.file.contents)]), [sending])
  }

  /**
   * A body is produced exactly when the mask resolves to one file and its copy succeeds; it then
   * holds one part, named "artifact-" followed by the appId, carrying that file's name and bytes.
   */
  lemma AssembleSpec(s: Settings, workspace: Node, compile: GlobCompiler, copy: CopyOutcome)
    ensures var a := Assemble(s, workspace, compile, copy);
            var found := Found(workspace, compile(Str(s.mask)));
            (a.parts.Some? <==> |found| == 1 && copy == Copied) &&
            (a.parts.Some? ==>
               a.parts.value == [FormFile(PartName(s.appId), found[0].file.name, found[0].file.contents)] &&
               found[0] in Candidates(Children(workspace), "") && compile(Str(s.mask))(found[0].path))
    ensures s.appId.Some? ==> PartName(s.appId) == "artifact-" + IntToString(s.appId.value)
  {
    var found := Found(workspace, compile(Str(s.mask)));
    if |found| == 1 {
      MatchingMembers(Candidates(Children(workspace), ""), compile(Str(s.mask)), found[0]);
    }
  }

  // ---------------------------------------------------------------------------------------------
  // The HTTP client's proxy

  /** The proxy the client is given, if any, and what choosing it logs. */
  datatype ClientSetup = ClientSetup(proxy: Option<ProxyConfiguration>, log: seq<Note>)

  /**
   * `getHttpClient`'s proxy decision: the master's proxy is used exactly when there is a master
   * instance, the notifier asks for its proxy, and the master has a proxy configuration. A missing
   * configuration is logged and the client connects directly; it is never an error.
   */
  function ClientProxy(useMasterProxy: bool, master: Master): (c: ClientSetup)
    ensures c.proxy.Some? <==> master.Instance? && useMasterProxy && master.proxy.Some?
    ensures c.proxy.Some? ==> c.proxy == master.proxy
  {
    match master
    case NoInstance => ClientSetup(None, [])
    case Instance(configuration) =>
      if !useMasterProxy then ClientSetup(None, [IgnoringProxy])
      else if configuration.None? then ClientSetup(None, [UsingMasterProxy, NoProxyInformation])
      else ClientSetup(configuration, [UsingMasterProxy, ProxyConfigured])
  }

  // ---------------------------------------------------------------------------------------------
  // The reply

  /** The three ways `perform` treats a response. */
  datatype ReplyClass = Accepted(body: string) | Rejected(code: int, body: string) | ServerFailed(code: int)

  /**
   * A successful response is accepted with its body; an unsuccessful one is rejected with code and
   * body below 500, and from 500 on is a server failure that keeps only the code.
   */
  function Classify(r: Response): (k: ReplyClass)
    ensures k.Accepted? <==> r.successful
    ensures k.Rejected? <==> !r.successful && r.code < 500
    ensures k.ServerFailed? <==> !r.successful && r.code >= 500
    ensures k.Accepted? ==> k.body == r.body
    ensures k.Rejected? ==> k.code == r.code && k.body == r.body
    ensures k.ServerFailed? ==> k.code == r.code
  {
    if r.successful then Accepted(r.body)
    else if r.code < 500 then Rejected(r.code, r.body)
    else ServerFailed(r.code)
  }

  /** What `perform` logs for each kind of reply. */
  function ReplyLog(url: string, k: ReplyClass): seq<Note>
  {
    match k
    case Accepted(body) => [ReplyBody(body), AllSent]
    case Rejected(code, body) => [ClientError(url, code, body)]
    case ServerFailed(code) => [ServerError(url, code)]
  }

  /** A client error is logged as one error line that ends with the reply's body in brackets. */
  lemma ClientErrorShowsBody(url: string, code: int, body: string)
    requires code < 500
    ensures var log := Entries(ReplyLog(url, Classify(Response(false, code, body))));
            |log| == 1 && log[0].severity == Out.Error && IsSuffix("[" + body + "].", log[0].message)
  {
    var n := ClientError(url, code, body);
    assert Entries([n]) == [Entry(n)] + Entries([]);
    var m := "Endpoint " + url + " replied with code " + IntToString(code) + " and message ";
    assert Entry(n).message == m + ("[" + body + "].");
  }

  /**
   * A server error is logged as one error line that names the url and ends with the reply's code,
   * and that line does not depend on the reply's body at all.
   */
  lemma ServerErrorIgnoresBody(url: string, code: int, body: string, other: string)
    requires code >= 500
    ensures var log := Entries(ReplyLog(url, Classify(Response(false, code, body))));
            |log| == 1 && log[0].severity == Out.Error &&
            IsPrefix("Endpoint " + url + " ", log[0].message) &&
            IsSuffix(" " + IntToString(code) + ".", log[0].message)
    ensures Entries(ReplyLog(url, Classify(Response(false, code, body)))) ==
            Entries(ReplyLog(url, Classify(Response(false, code, other))))
  {
    var n := ServerError(url, code);
    assert Classify(Response(false, code, body)) == Classify(Response(false, code, other));
    assert Entries([n]) == [Entry(n)] + Entries([]);
    assert Entry(n).message == ("Endpoint " + url + " ") + "replied with code" + (" " + IntToString(code) + ".");
  }

  /** An accepted reply logs its body as a success line, then the "all sent" success line. */
  lemma SuccessShowsBody(url: string, code: int, body: string)
    ensures Entries(ReplyLog(url, Classify(Response(true, code, body)))) ==
            [Out.LogEntry(Out.Success, body), Out.LogEntry(Out.Success, "All artifacts sent to Connect")]
  {
    assert Entries([AllSent]) == [Entry(AllSent)] + Entries([]);
  }

  // ---------------------------------------------------------------------------------------------
  // The whole step

  /** The request `perform` sends: url, headers, body parts, and the proxy its client uses. */
  datatype Request = Request(url: string, headers: seq<(string, string)>, parts: seq<Part>, proxy: Option<ProxyConfiguration>)

  /** Why `perform` throws `java.lang.Error`: the call itself failed, or the reply was not a success. */
  datatype UploadError = ExecutionFailed | Refused(reply: ReplyClass)

  /** How `perform` ends: it returns before any request exists, returns after a success, or throws. */
  datatype Outcome =
    | Halted
    | Delivered(request: Request, body: string)
    | Raised(request: Request, error: UploadError)

  /** The inputs `perform` gets from outside: the glob compiler, the copy, the master and the reply. */
  datatype Env = Env(compile: GlobCompiler, copy: CopyOutcome, master: Master, reply: Exchange)

  datatype PerformTrace = PerformTrace(outcome: Outcome, token: Option<string>, log: seq<Note>)

  /** What sending the request yields: how the step ends and what the reply's classification logs. */
  datatype Exchanged = Exchanged(outcome: Outcome, log: seq<Note>)

  function Send(request: Request, reply: Exchange): Exchanged
  {
    match reply
    case TransportFailure => Exchanged(Raised(request, ExecutionFailed), [])
    case Replied(response) =>
      var k := Classify(response);
      Exchanged(if k.Accepted? then Delivered(request, k.body) else Raised(request, Refused(k)), ReplyLog(request.url, k))
  }

  /**
   * The part of `perform` after validation has passed: build the body, halt without one, otherwise
   * set up the client, log, and send.
   */
  function Deliver(s: Settings, token: Option<string>, workspace: Node, env: Env): Exchanged
  {
    var a := Assemble(s, workspace, env.compile, env.copy);
    if a.parts.None? then Exchanged(Halted, a.log + [NoAttachments])
    else
      var c := ClientProxy(s.useMasterProxy, env.master);
      var request := Request(Str(s.url), [(TOKEN_HEADER_NAME, Str(token))], a.parts.value, c.proxy);
      var x := Send(request, env.reply);
      Exchanged(x.outcome, a.log + c.log + [ExecutingUpload] + x.log)
  }

  /** `perform(run, workspace, ...)`: the outcome, the token field afterwards, and the lines logged. */
  function PerformSpec(s: Settings, token: Option<string>, run: Run, workspace: Node, env: Env): PerformTrace
  {
    var v := Validated(s, token, run);
    var validated := [ProcessingStarted] + ValidationLog(v.failure);
    if v.failure.Some? then PerformTrace(Halted, v.token, validated)
    else
      var d := Deliver(s, v.token, workspace, env);
      PerformTrace(d.outcome, v.token, validated + d.log)
  }

  /**
   * Nothing outside is consulted before validation passes: a failed validation halts whatever the
   * workspace, the copy, the master or the reply would be, and a failed build in particular.
   */
  lemma ValidationGatesEverything(s: Settings, token: Option<string>, run: Run, w1: Node, e1: Env, w2: Node, e2: Env)
    requires Validated(s, token, run).failure.Some?
    ensures PerformSpec(s, token, run, w1, e1) == PerformSpec(s, token, run, w2, e2)
    ensures PerformSpec(s, token, run, w1, e1).outcome == Halted
    ensures run.result.Some? && IsWorseOrEqualTo(run.result.value, Failure) ==>
              PerformSpec(s, token, run, w1, e1).token == token
  {
  }

  /** A body that cannot be built halts the step before any client or request: proxy and reply are never consulted. */
  lemma NoBodyNoRequest(s: Settings, token: Option<string>, run: Run, workspace: Node, e1: Env, e2: Env)
    requires Validated(s, token, run).failure.None?
    requires e1.compile == e2.compile && e1.copy == e2.copy
    requires Assemble(s, workspace, e1.compile, e1.copy).parts.None?
    ensures PerformSpec(s, token, run, workspace, e1) == PerformSpec(s, token, run, workspace, e2)
    ensures PerformSpec(s, token, run, workspace, e1).outcome == Halted
  {
  }

  /**
   * Every request sent goes to the configured, non-empty url, carries the backfilled, non-empty
   * token in the X-Connect-Token header and exactly the one artifact part, named "artifact-"
   * followed by the appId.
   */
  lemma RequestShape(s: Settings, token: Option<string>, run: Run, workspace: Node, env: Env)
    requires !PerformSpec(s, token, run, workspace, env).outcome.Halted?
    ensures var t := PerformSpec(s, token, run, workspace, env);
            Validated(s, token, run).failure.None? &&
            !IsEmpty(t.token) && !IsEmpty(s.url) && s.appId.Some? &&
            t.outcome.request.url == s.url.value &&
            t.outcome.request.headers == [(TOKEN_HEADER_NAME, t.token.value)] &&
            Assemble(s, workspace, env.compile, env.copy).parts == Some(t.outcome.request.parts)
    ensures var t := PerformSpec(s, token, run, workspace, env);
            |t.outcome.request.parts| == 1 &&
            t.outcome.request.parts[0].name == "artifact-" + IntToString(s.appId.value)
  {
    var v := Validated(s, token, run);
    assert v.failure.None?;
    assert !IsEmpty(v.token) && !IsEmpty(s.url) && s.appId.Some?;
    AssembleSpec(s, workspace, env.compile, env.copy);
  }

  /**
   * Once a request is sent, the step is delivered exactly when the reply is a successful
   * response; a refused reply is reported with its classification.
   */
  lemma DeliveredIffSuccessful(s: Settings, token: Option<string>, run: Run, workspace: Node, env: Env)
    ensures var t := PerformSpec(s, token, run, workspace, env);
            t.outcome.Delivered? <==> !t.outcome.Halted? && env.reply.Replied? && env.reply.response.successful
    ensures var t := PerformSpec(s, token, run, workspace, env);
            t.outcome.Raised? && t.outcome.error.Refused? ==>
              env.reply.Replied? && t.outcome.error.reply == Classify(env.reply.response) &&
              !env.reply.response.successful
  {
  }

  /** `perform(AbstractBuild, ...)`: false without a workspace, true once the step has run, or the thrown error. */
  datatype StepResult = Returned(value: bool) | Threw(error: UploadError)

  function BuildStep(workspace: Option<Node>, t: PerformTrace): StepResult
  {
    if workspace.None? then Returned(false)
    else if t.outcome.Raised? then Threw(t.outcome.error)
    else Returned(true)
  }

  // ---------------------------------------------------------------------------------------------
  // The notifier

  class ConnectNotifier {
    var token: Option<string>
    const url: Option<string>
    const appId: Option<int>
    const mask: Option<string>
    const useMasterProxy: bool

    constructor (token: Option<string>, url: Option<string>, appId: Option<int>, mask: Option<string>, useMasterProxy: bool)
      ensures this.token == token && this.url == url && this.appId == appId && this.mask == mask
      ensures this.useMasterProxy == useMasterProxy
    {
      this.token := token;
      this.url := url;
      this.appId := appId;
      this.mask := mask;
      this.useMasterProxy := useMasterProxy;
    }

    function Config(): Settings
    {
      Settings(url, appId, mask, useMasterProxy)
    }

    /** `getToken(run)`: backfills an empty token field from the build parameters and returns it. */
    method GetToken(run: Run) returns (t: Option<string>)
      modifies this`token
      ensures token == BackfilledToken(old(token), run.actions) && t == token
    {
      if IsEmpty(token) {
        var tokenValue := GetParameterValue(run, TOKEN_PARAMETER);
        if tokenValue.Some? {
          token := tokenValue;
        }
      }
      t := token;
    }

    /** `validate`: runs the checks in order, logging, and backfills the token when it gets that far. */
    method Validate(run: Run, out: Out.OutputUtils) returns (ok: bool)
      modifies this`token, out.printStream
      ensures var v := Validated(Config(), old(token), run);
              ok == v.failure.None? && token == v.token &&
              out.printStream.writes == old(out.printStream.writes) + Printed(ValidationLog(v.failure))
    {
      ghost var v := Validated(Config(), token, run);
      Log(out, ValidationStarted);
      var failure: Option<Check> := None;
      if run.result.Some? && IsWorseOrEqualTo(run.result.value, Failure) {
        failure := Some(FailedBuild);
      } else if appId.None? {
        failure := Some(NoAppId);
      } else if IsEmpty(mask) {
        failure := Some(NoMask);
      } else {
        var t := GetToken(run);
        if IsEmpty(t) {
          failure := Some(NoToken);
        } else if IsEmpty(url) {
          failure := Some(NoUrl);
        }
      }
      assert failure == v.failure && token == v.token;
      var last := if failure.Some? then CheckFailed(failure.value) else ValidationPassed;
      Log(out, last);
      LoggedAfter(old(out.printStream.writes), [ValidationStarted], [last]);
      ok := failure.None?;
    }

    /** `getMultipartBuilder`: the body with the one artifact part, or None where the source returns null. */
    method GetMultipartBuilder(workspace: Node, compile: GlobCompiler, copy: CopyOutcome, out: Out.OutputUtils)
      returns (body: Option<seq<Part>>)
      modifies out.printStream
      ensures var a := Assemble(Config(), workspace, compile, copy);
              body == a.parts && out.printStream.writes == old(out.printStream.writes) + Printed(a.log)
    {
      var multipart := new MultipartBuilder();
      var r := GetArtifact(workspace, Str(mask), compile);
      match r {
        case Unresolved(MultipleArtifacts) =>
          Log(out, MultipleMatches(Str(mask)));
          body := None;
        case Unresolved(ArtifactsNotFound) =>
          Log(out, NoMatches(Str(mask)));
          body := None;
        case Resolved(artifact) =>
          Log(out, SendingArtifact(artifact.file.name));
          match copy {
            case CopyFailed =>
              Log(out, UnreadableArtifact(Str(mask)));
              LoggedAfter(old(out.printStream.writes), [SendingArtifact(artifact.file.name)], [UnreadableArtifact(Str(mask))]);
              body := None;
            case CopyInterrupted =>
              Log(out, WasInterrupted);
              LoggedAfter(old(out.printStream.writes), [SendingArtifact(artifact.file.name)], [WasInterrupted]);
              body := None;
            case Copied =>
              multipart.AddFormDataPart(FormFile(PartName(appId), artifact.file.name, artifact.file.contents));
              assert multipart.parts == [FormFile(PartName(appId), artifact.file.name, artifact.file.contents)];
              body := Some(multipart.Build());
          }
      }
      assert Config().mask == mask && Config().appId == appId;
    }

    /** `getHttpClient`'s proxy choice, with what it logs. */
    method GetHttpClient(master: Master, out: Out.OutputUtils) returns (proxy: Option<ProxyConfiguration>)
      modifies out.printStream
      ensures var c := ClientProxy(useMasterProxy, master);
              proxy == c.proxy && out.printStream.writes == old(out.printStream.writes) + Printed(c.log)
    {
      proxy := None;
      if master.Instance? {
        if useMasterProxy {
          Log(out, UsingMasterProxy);
          if master.proxy.Some? {
            proxy := master.proxy;
            Log(out, ProxyConfigured);
            LoggedAfter(old(out.printStream.writes), [UsingMasterProxy], [ProxyConfigured]);
          } else {
            Log(out, NoProxyInformation);
            LoggedAfter(old(out.printStream.writes), [UsingMasterProxy], [NoProxyInformation]);
          }
        } else {
          Log(out, IgnoringProxy);
        }
      } else {
        assert Printed([]) == [];
      }
    }

    /** The tail of `perform`: executes the request and logs and classifies the reply. */
    method Execute(request: Request, reply: Exchange, out: Out.OutputUtils) returns (outcome: Outcome)
      modifies out.printStream
      ensures var x := Send(request, reply);
              outcome == x.outcome && out.printStream.writes == old(out.printStream.writes) + Printed(x.log)
    {
      match reply {
        case TransportFailure =>
          assert Printed([]) == [];
          outcome := Raised(request, ExecutionFailed);
        case Replied(response) =>
          var k := Classify(response);
          match k {
            case Accepted(b) =>
              Log(out, ReplyBody(b));
              Log(out, AllSent);
              LoggedAfter(old(out.printStream.writes), [ReplyBody(b)], [AllSent]);
              outcome := Delivered(request, b);
            case Rejected(code, b) =>
              Log(out, ClientError(request.url, code, b));
              outcome := Raised(request, Refused(k));
            case ServerFailed(code) =>
              Log(out, ServerError(request.url, code));
              outcome := Raised(request, Refused(k));
          }
      }
    }

    /** The part of `perform` after validation: body, client, request and reply. */
    method Upload(workspace: Node, env: Env, out: Out.OutputUtils) returns (outcome: Outcome)
      modifies out.printStream
      ensures var d := Deliver(Config(), token, workspace, env);
              outcome == d.outcome && out.printStream.writes == old(out.printStream.writes) + Printed(d.log)
    {
      ghost var before := out.printStream.writes;
      var body := GetMultipartBuilder(workspace, env.compile, env.copy, out);
      ghost var log := Assemble(Config(), workspace, env.compile, env.copy).log;
      if body.None? {
        Log(out, NoAttachments);
        LoggedAfter(before, log, [NoAttachments]);
        return Halted;
      }
      var proxy := GetHttpClient(env.master, out);
      ghost var c := ClientProxy(useMasterProxy, env.master);
      LoggedAfter(before, log, c.log);
      log := log + c.log;
      var request := Request(Str(url), [(TOKEN_HEADER_NAME, Str(token))], body.value, proxy);
      Log(out, ExecutingUpload);
      LoggedAfter(before, log, [ExecutingUpload]);
      log := log + [ExecutingUpload];
      outcome := Execute(request, env.reply, out);
      LoggedAfter(before, log, Send(request, env.reply).log);
    }

    /**
     * `perform(run, workspace, launcher, listener)`: looks up the logger for the listener's stream,
     * then validates, builds the body, chooses the proxy, sends, and classifies the reply.
     */
    method Perform(run: Run, workspace: Node, env: Env, registry: Out.LoggerRegistry, listener: PrintStream)
      returns (outcome: Outcome)
      modifies this`token, registry, Out.StreamFor(registry.instances, listener)
      ensures var t := PerformSpec(Config(), old(token), run, workspace, env);
              var target := Out.StreamFor(old(registry.instances), listener);
              outcome == t.outcome && token == t.token &&
              target.writes == old(target.writes) + Printed(t.log)
      ensures Out.LookedUp(old(registry.instances), registry.instances, listener)
    {
      ghost var v := Validated(Config(), token, run);
      var out := registry.GetLoggerForStream(listener);
      ghost var before := out.printStream.writes;
      Log(out, ProcessingStarted);
      var ok := Validate(run, out);
      LoggedAfter(before, [ProcessingStarted], ValidationLog(v.failure));
      ghost var log := [ProcessingStarted] + ValidationLog(v.failure);
      if !ok {
        return Halted;
      }
      outcome := Upload(workspace, env, out);
      LoggedAfter(before, log, Deliver(Config(), token, workspace, env).log);
    }

    /** `perform(AbstractBuild, launcher, listener)`: no workspace means false, otherwise run the step. */
    method PerformBuild(run: Run, workspace: Option<Node>, env: Env, registry: Out.LoggerRegistry, listener: PrintStream)
      returns (result: StepResult)
      modifies this`token, registry, Out.StreamFor(registry.instances, listener)
      ensures var target := Out.StreamFor(old(registry.instances), listener);
              workspace.None? ==>
                result == Returned(false) && token == old(token) &&
                registry.instances == old(registry.instances) && target.writes == old(target.writes)
      ensures var target := Out.StreamFor(old(registry.instances), listener);
              workspace.Some? ==>
                var t := PerformSpec(Config(), old(token), run, workspace.value, env);
                result == BuildStep(workspace, t) && token == t.token &&
                target.writes == old(target.writes) + Printed(t.log) &&
                Out.LookedUp(old(registry.instances), registry.instances, listener)
    {
      if workspace.None? {
        return Returned(false);
      }
      var outcome := Perform(run, workspace.value, env, registry, listener);
      if outcome.Raised? {
        result := Threw(outcome.error);
      } else {
        result := Returned(true);
      }
    }
  }
}
