# Incapptic uploaders for Jenkins, modelled in Dafny

This project models the two post-build uploaders of the Incapptic Jenkins plugin:

- The connect notifier (`ConnectNotifier`):
  - validates its configuration and the build, backfilling an empty token from the build's "token" parameter;
  - resolves the one workspace file the mask glob selects;
  - builds a multipart body holding that file as the part "artifact-<appId>";
  - optionally routes the HTTP client through the Jenkins master's proxy;
  - posts the body with the token in the `X-Connect-Token` header;
  - classifies the reply as accepted, client error (with the reply body) or server error (without it).
- The appconnect notifier (`AppConnectNotifier`):
  - skips a failed build;
  - otherwise walks its list of (glob, url) configurations;
  - adds each resolved artifact to ONE shared multipart body that starts with the token field;
  - posts the body as it stands to that configuration's url;
  - stops at the first configuration that cannot be resolved, copied or accepted.
- The two `OutputUtils` console loggers:
  - the connect logger, which the connect notifier writes through, with its cache keyed by stream hash code;
  - the appconnect static helpers, which format a prefixed line. The appconnect notifier itself does not call them: it writes with `format` and `println` on the listener's stream, and the model does the same.

Modules:

- `Common`: nullable values as `Option`, Java's rendering of null and integers as text.
- `Host`: what Jenkins and the JDK hand over. This covers build results, run actions and parameters, the console `PrintStream` as a class recording its writes, HTTP replies, the master's proxy, and the outcome of the temporary-file copy.
- `Artifacts`: the workspace tree, the path each file is matched under, the matching files, and the none / one / many classification shared by both notifiers.
- `Multipart`: the body builder as a class whose parts accumulate.
- `ConnectOutput`, `AppConnectOutput`: the two `OutputUtils`.
- `Connect`, `AppConnect`: the two notifiers.

How the notifiers are modelled:

- Each notifier's behaviour is a specification function: `Connect.PerformSpec` and `AppConnect.PerformSpec`.
  - Properties are proved about these functions as lemmas.
  - Each function yields the outcome, the requests posted and the messages logged.
- The notifier classes keep the source's shape: mutable token field, shared builder, loops over actions, parameters, children and configurations.
- Their methods are proved to produce exactly what the specification functions say, including every line written to the build log, in order.
  - One exception: on a transport failure, the connect notifier prints the exception's stack trace on the logger's stream before throwing. The model writes nothing there (see "## Left out").

The outside world is passed in as parameters:

- the glob compiler (`compile(p)` stands for the `PathMatcher` of "glob:" + p);
- the outcome of copying the artifact through a temporary file;
- the HTTP exchange, per request;
- the Jenkins master.

Points where the code behaves in a way a reader might not expect, which the model follows:

- Files in subdirectories are matched under a path with a leading slash ("/d/name", see `Artifacts.NestedFilePath`).
  - The reason: the recursive walk builds its base as `"%s/%s"` starting from the empty string.
  - So a glob such as `a/*.ipa` never selects the file `a/x.ipa`, which is matched as "/a/x.ipa".
  - The model assumes a Unix file system: `Paths.get` joins with "/" there, and with the platform's own separator elsewhere.
- The connect body carries only the artifact part.
  - The token travels in a header, not in the body.
- The temporary file is never deleted.
- A transport failure in the connect notifier is thrown as a `java.lang.Error`, not as an `IOException`.

## Model

| member | source | states |
|---|---|---|
| Host.FailedResults | src/main/java/com/incapptic/plugins/connect/ConnectNotifier.java:140 | a result at least as bad as FAILURE is exactly FAILURE, NOT_BUILT or ABORTED |
| Artifacts.Select | src/main/java/com/incapptic/plugins/connect/ConnectNotifier.java:300-306 | no match is ArtifactsNotFound, more than one is MultipleArtifacts, exactly one resolves to a collected file |
| Artifacts.WalkStep | src/main/java/com/incapptic/plugins/connect/ConnectNotifier.java:313-322 | each child extends the collected list by its directory's own walk under base + "/" + name, or by itself when its joined path matches |
| Artifacts.MatchingMembers | src/main/java/com/incapptic/plugins/connect/ConnectNotifier.java:317-320 | a file is collected if and only if the walk visits it and the matcher accepts its path |
| Artifacts.CandidatePaths | src/main/java/com/incapptic/plugins/connect/ConnectNotifier.java:313-317 | every matched path ends with the file's name and, below a non-empty base, starts with base + "/" |
| Artifacts.RootFilePath | src/main/java/com/incapptic/plugins/connect/ConnectNotifier.java:317 | a file at the workspace root is matched under its bare name |
| Artifacts.NestedFilePath | src/main/java/com/incapptic/plugins/connect/ConnectNotifier.java:315-317 | a file in top-level directory d is matched under "/d/name", with a leading slash |
| Artifacts.ResolvedIsTheOnlyMatch | src/main/java/com/incapptic/plugins/connect/ConnectNotifier.java:298-306 | resolution yields c exactly when c is the only match, and then every accepted file is c |
| Artifacts.SelectIgnoresOrder | src/main/java/com/incapptic/plugins/connect/ConnectNotifier.java:300-306 | the classification does not depend on the order in which the walk found the files |
| ConnectOutput.Prefix | src/main/java/com/incapptic/plugins/connect/OutputUtils.java:11-13 | all three severity prefixes are 9 characters wide |
| ConnectOutput.ParseLine | src/main/java/com/incapptic/plugins/connect/OutputUtils.java:32-34 | every line it accepts is exactly the line printed for the entry it returns |
| ConnectOutput.ParseLineInvertsLine | src/main/java/com/incapptic/plugins/connect/OutputUtils.java:32-46 | every printed line reads back as its severity and message |
| ConnectOutput.LineInjective | src/main/java/com/incapptic/plugins/connect/OutputUtils.java:32-46 | two messages print the same line only if severity and text agree |
| ConnectOutput.OutputUtils.constructor | src/main/java/com/incapptic/plugins/connect/OutputUtils.java:26-28 | the logger is bound to the given stream |
| ConnectOutput.OutputUtils.Print | src/main/java/com/incapptic/plugins/connect/OutputUtils.java:32-34 | writes exactly one line, prefix, blank and message, and a line break |
| ConnectOutput.OutputUtils.Info | src/main/java/com/incapptic/plugins/connect/OutputUtils.java:36-38 | writes the message as one info line |
| ConnectOutput.OutputUtils.Error | src/main/java/com/incapptic/plugins/connect/OutputUtils.java:40-42 | writes the message as one error line |
| ConnectOutput.OutputUtils.Success | src/main/java/com/incapptic/plugins/connect/OutputUtils.java:44-46 | writes the message as one success line |
| ConnectOutput.GetOrInsert | src/main/java/com/incapptic/plugins/connect/OutputUtils.java:19-24 | the key is present afterwards, the existing value is kept if there is one, no other entry changes |
| ConnectOutput.GetOrInsertIdempotent | src/main/java/com/incapptic/plugins/connect/OutputUtils.java:19-24 | a second lookup under the same hash code changes nothing and returns the same logger |
| ConnectOutput.LoggerRegistry.GetLoggerForStream | src/main/java/com/incapptic/plugins/connect/OutputUtils.java:19-24 | returns the cached logger for the hash code, creating one bound to this stream only when none is cached |
| ConnectOutput.CollidingStreamsShareLogger | src/main/java/com/incapptic/plugins/connect/OutputUtils.java:17-24 | two distinct streams with one hash code get the same logger, which writes to the first stream |
| AppConnectOutput.Print | src/main/java/com/incapptic/plugins/appconnectplugin/OutputUtils.java:14-16 | the line is the prefix, one blank, then the message |
| AppConnectOutput.Info | src/main/java/com/incapptic/plugins/appconnectplugin/OutputUtils.java:18-20 | the line starts with the info prefix and reads back as an info entry with the same message |
| AppConnectOutput.Error | src/main/java/com/incapptic/plugins/appconnectplugin/OutputUtils.java:22-24 | the line starts with the error prefix and reads back as an error entry with the same message |
| AppConnectOutput.Success | src/main/java/com/incapptic/plugins/appconnectplugin/OutputUtils.java:26-28 | the line starts with the success prefix and reads back as a success entry with the same message |
| AppConnectOutput.PrefixWidths | src/main/java/com/incapptic/plugins/appconnectplugin/OutputUtils.java:9-11 | the three prefixes are 9 characters wide, like the connect logger's |
| Connect.FirstNamedSpec | src/main/java/com/incapptic/plugins/connect/ConnectNotifier.java:94-97 | the lookup finds nothing if and only if no parameter has the name, otherwise the first one that has it |
| Connect.GetParameterValue | src/main/java/com/incapptic/plugins/connect/ConnectNotifier.java:90-102 | returns the value of the first parameter with the name across all parameter actions, null when there is none |
| Connect.BackfillSpec | src/main/java/com/incapptic/plugins/connect/ConnectNotifier.java:80-88 | a non-empty token is kept; a changed token is the first "token" parameter's value; without one the token stays; backfilling is idempotent |
| Connect.ConnectNotifier.constructor | src/main/java/com/incapptic/plugins/connect/ConnectNotifier.java:51-58 | the notifier holds the configured token, url, appId, mask and proxy choice |
| Connect.ConnectNotifier.GetToken | src/main/java/com/incapptic/plugins/connect/ConnectNotifier.java:80-88 | the token field becomes the backfilled token, which is returned |
| Connect.ValidateReportsFirstFailure | src/main/java/com/incapptic/plugins/connect/ConnectNotifier.java:137-163 | the reported check is the first failing one in the source's order, validation passes if and only if no check fails, and the token is backfilled only once the first three checks pass |
| Connect.CheckMessagesDistinct | src/main/java/com/incapptic/plugins/connect/ConnectNotifier.java:141-157 | different failed checks print different messages |
| Connect.ConnectNotifier.Validate | src/main/java/com/incapptic/plugins/connect/ConnectNotifier.java:137-163 | the result, the new token and the lines logged are the specification's validation |
| Connect.GetArtifacts | src/main/java/com/incapptic/plugins/connect/ConnectNotifier.java:310-323 | appends exactly the matching files below the node, in depth-first order |
| Connect.GetArtifact | src/main/java/com/incapptic/plugins/connect/ConnectNotifier.java:294-308 | the classification of the files matching the glob from the workspace root |
| Connect.AssembleSpec | src/main/java/com/incapptic/plugins/connect/ConnectNotifier.java:165-204 | a body exists exactly when the mask resolves to one file and the copy succeeds; it holds that file's name and bytes as the one part "artifact-<appId>" |
| Connect.ConnectNotifier.GetMultipartBuilder | src/main/java/com/incapptic/plugins/connect/ConnectNotifier.java:165-204 | returns the specified body or null and logs the specified lines |
| Connect.ClientProxy | src/main/java/com/incapptic/plugins/connect/ConnectNotifier.java:104-135 | the master's proxy is used if and only if there is a master, the proxy option is on and the master has a proxy |
| Connect.ConnectNotifier.GetHttpClient | src/main/java/com/incapptic/plugins/connect/ConnectNotifier.java:104-135 | chooses the specified proxy and logs the specified lines |
| Connect.Classify | src/main/java/com/incapptic/plugins/connect/ConnectNotifier.java:264-281 | a successful reply is accepted, an unsuccessful one below 500 is a client error with its body, from 500 on a server error |
| Connect.ClientErrorShowsBody | src/main/java/com/incapptic/plugins/connect/ConnectNotifier.java:265-270 | a client error logs one error line that ends with the reply body in brackets |
| Connect.ServerErrorIgnoresBody | src/main/java/com/incapptic/plugins/connect/ConnectNotifier.java:271-275 | a server error logs one error line that names the url and ends with the reply's code, and that line does not depend on the reply body |
| Connect.SuccessShowsBody | src/main/java/com/incapptic/plugins/connect/ConnectNotifier.java:277-281 | an accepted reply logs its body as a success line, then the success line "All artifacts sent to Connect" |
| Connect.ConnectNotifier.Execute | src/main/java/com/incapptic/plugins/connect/ConnectNotifier.java:248-281 | the outcome and the lines logged for the exchange are those the specification gives |
| Connect.ConnectNotifier.Upload | src/main/java/com/incapptic/plugins/connect/ConnectNotifier.java:220-281 | the part of perform after validation yields the specified outcome and log |
| Connect.ValidationGatesEverything | src/main/java/com/incapptic/plugins/connect/ConnectNotifier.java:217-219 | a failed validation halts the step whatever the workspace, copy, proxy or reply; a failed build leaves the token alone |
| Connect.NoBodyNoRequest | src/main/java/com/incapptic/plugins/connect/ConnectNotifier.java:221-225 | when no body can be built the step halts and neither the master nor the reply is consulted |
| Connect.RequestShape | src/main/java/com/incapptic/plugins/connect/ConnectNotifier.java:234-239 | a sent request goes to the non-empty url, carries the non-empty backfilled token in X-Connect-Token and exactly the one artifact part |
| Connect.DeliveredIffSuccessful | src/main/java/com/incapptic/plugins/connect/ConnectNotifier.java:249-281 | the step is delivered if and only if a request was sent and its reply is successful; a refusal carries the reply's classification |
| Connect.ConnectNotifier.Perform | src/main/java/com/incapptic/plugins/connect/ConnectNotifier.java:212-282 | the outcome, the new token and the lines written to the stream of the cached logger are those of the specification; the logger cache gains the listener's hash code by get-or-insert, keeping every old entry |
| Connect.ConnectNotifier.PerformBuild | src/main/java/com/incapptic/plugins/connect/ConnectNotifier.java:284-292 | no workspace returns false and leaves the token, the logger cache and the stream untouched; otherwise it runs the step, with its log and its cache update, and returns true unless the step throws |
| AppConnect.GetArtifactConfigList | src/main/java/com/incapptic/plugins/appconnectplugin/AppConnectNotifier.java:48-53 | a null list reads as empty, any other list as itself |
| AppConnect.MatchedOnePerFile | src/main/java/com/incapptic/plugins/appconnectplugin/AppConnectNotifier.java:156-158 | the walk logs one "Path … matches." line per collected file, naming its path |
| AppConnect.GetArtifacts | src/main/java/com/incapptic/plugins/appconnectplugin/AppConnectNotifier.java:148-162 | appends exactly the matching files below the node in depth-first order and logs one line per file |
| AppConnect.GetArtifact | src/main/java/com/incapptic/plugins/appconnectplugin/AppConnectNotifier.java:130-146 | the classification of the files matching the glob, with their lines logged |
| AppConnect.PassSpec | src/main/java/com/incapptic/plugins/appconnectplugin/AppConnectNotifier.java:79-122 | one configuration posts to its url, adds the resolved file as an "artifact" part exactly when it resolves and copies, lets the loop go on exactly when it is also accepted; no or several matches and an interrupted copy return true, a failed copy or exchange throws an IOException, and a refused reply throws the AppConnectException naming the url and code; nothing found logs only "No artifacts found", several files log their "matches" lines and "Multiple artifacts found", one file logs its "matches" line, "being sent" and, after an interrupted copy, "Interrupted."; no pass logs the "scheduled" line |
| AppConnect.PassesSpec | src/main/java/com/incapptic/plugins/appconnectplugin/AppConnectNotifier.java:78-124 | every pass of the list conforms, at its index, to everything PassSpec states |
| AppConnect.StoppedStays | src/main/java/com/incapptic/plugins/appconnectplugin/AppConnectNotifier.java:111-121 | once a configuration ends perform, the later ones change nothing |
| AppConnect.RunningIffAllContinue | src/main/java/com/incapptic/plugins/appconnectplugin/AppConnectNotifier.java:78-124 | the loop is still running after n configurations if and only if none of them ended it |
| AppConnect.OnePostPerPass | src/main/java/com/incapptic/plugins/appconnectplugin/AppConnectNotifier.java:98-104 | at most one request per configuration, exactly one while the loop goes on, the k-th to the k-th url |
| AppConnect.AccumulatedStep | src/main/java/com/incapptic/plugins/appconnectplugin/AppConnectNotifier.java:96-100 | one iteration keeps the body's shape: token first, then artifact parts, each request carrying the body as it stood after its own part |
| AppConnect.IterateAccumulates | src/main/java/com/incapptic/plugins/appconnectplugin/AppConnectNotifier.java:69-100 | that shape holds after any number of iterations from the token-only body |
| AppConnect.ReturnsAreTrue | src/main/java/com/incapptic/plugins/appconnectplugin/AppConnectNotifier.java:111-121 | every way the loop ends perform normally returns true |
| AppConnect.BodiesExtend | src/main/java/com/incapptic/plugins/appconnectplugin/AppConnectNotifier.java:96-100 | each posted body extends every body posted before it |
| AppConnect.PerformSkips | src/main/java/com/incapptic/plugins/appconnectplugin/AppConnectNotifier.java:64-76 | a failed build or an empty configuration list logs one line, posts nothing and returns true |
| AppConnect.PerformReturnsTrue | src/main/java/com/incapptic/plugins/appconnectplugin/AppConnectNotifier.java:62-128 | perform never returns false |
| AppConnect.IterateParts | src/main/java/com/incapptic/plugins/appconnectplugin/AppConnectNotifier.java:96-100 | after any number of iterations, the part after the token at position j + 1 is the part pass j added |
| AppConnect.LoopRequests | src/main/java/com/incapptic/plugins/appconnectplugin/AppConnectNotifier.java:69-104 | the k-th request of the loop goes to pass k's url with the token part and then the parts passes 0 to k added, extending the bodies before it |
| AppConnect.FirstStopEnds | src/main/java/com/incapptic/plugins/appconnectplugin/AppConnectNotifier.java:78-124 | when pass k is the first to end perform, the loop ends as that pass does, after k requests plus one if pass k added its part |
| AppConnect.PerformRequests | src/main/java/com/incapptic/plugins/appconnectplugin/AppConnectNotifier.java:69-104 | at most one request per configuration; the k-th goes to the k-th url with the token part first and then the artifact parts configurations 0 to k added, extending the bodies before it |
| AppConnect.PerformSendsResolvedFiles | src/main/java/com/incapptic/plugins/appconnectplugin/AppConnectNotifier.java:81-100 | part j + 1 of every request is the one file configuration j's glob matched, as an "artifact" part with its name and bytes |
| AppConnect.NotInPassLogs | src/main/java/com/incapptic/plugins/appconnectplugin/AppConnectNotifier.java:78-124 | a message no pass logs is absent from the passes' combined log |
| AppConnect.RunningLog | src/main/java/com/incapptic/plugins/appconnectplugin/AppConnectNotifier.java:78-124 | while the loop goes on, its log is the logs of the passes so far, in order, and it ends as its last pass does |
| AppConnect.CompletedLog | src/main/java/com/incapptic/plugins/appconnectplugin/AppConnectNotifier.java:78-124 | a loop that ran through has logged exactly the logs of all its passes |
| AppConnect.FirstStopLog | src/main/java/com/incapptic/plugins/appconnectplugin/AppConnectNotifier.java:78-124 | when pass k is the first to end perform, the loop has logged exactly what passes 0 to k logged |
| AppConnect.PerformStopsAt | src/main/java/com/incapptic/plugins/appconnectplugin/AppConnectNotifier.java:78-126 | when configuration k is the first that does not succeed, perform ends (returns or throws) as its pass does, after one request per earlier configuration and one more exactly when its artifact was added; it has logged what configurations 0 to k logged and never the "scheduled" line |
| AppConnect.RefusalEscapes | src/main/java/com/incapptic/plugins/appconnectplugin/AppConnectNotifier.java:106-122 | a refused reply after earlier successes makes perform throw the AppConnectException for that url and code, after k + 1 requests; the catch clauses do not stop it |
| AppConnect.PerformCompletes | src/main/java/com/incapptic/plugins/appconnectplugin/AppConnectNotifier.java:78-127 | the loop runs through if and only if every configuration succeeds, and then one request per configuration is posted, the log is every configuration's log followed by the "scheduled" line, and true is returned |
| AppConnect.AppConnectNotifier.constructor | src/main/java/com/incapptic/plugins/appconnectplugin/AppConnectNotifier.java:39-42 | the notifier holds the token and the configuration list; the url argument is dropped |
| AppConnect.AppConnectNotifier.ProcessConfig | src/main/java/com/incapptic/plugins/appconnectplugin/AppConnectNotifier.java:79-122 | the loop body adds the specified part to the shared builder, posts the whole body, and logs and ends as specified |
| AppConnect.AppConnectNotifier.UploadAll | src/main/java/com/incapptic/plugins/appconnectplugin/AppConnectNotifier.java:78-124 | the loop posts the requests, leaves the shared builder, logs the lines and ends as the fold of the passes does |
| AppConnect.AppConnectNotifier.Perform | src/main/java/com/incapptic/plugins/appconnectplugin/AppConnectNotifier.java:62-128 | the outcome, the requests posted and the lines written are those of the specification |

## Left out

- HTTP transport, temporary files and byte reading. They are I/O: a request is recorded as url, headers, parts and proxy, and the copy and reply are parameters.
- The temporary file is left out entirely. The source never deletes it, so there is nothing to model.
- Glob semantics of `PathMatcher`. They are JDK behaviour; the compiled matcher is a parameter.
- An invalid glob. `getPathMatcher` throws a `PatternSyntaxException` that escapes both `perform` methods; the model's `compile` is total, so that exit is not modelled.
- IOException and InterruptedException raised by `FilePath.list()` during the walk. The walk is modelled as total over a given tree.
- Verbose logging in the connect notifier. Each such call passes the verbose-logging flag to a `verbose` method that the connect logger file does not define, so what it prints is not part of this model.
- The arguments of those calls, which are evaluated whatever the flag. At ConnectNotifier.java:220 and :227 they call `filePath.absolutize()`, which can throw an IOException or InterruptedException out of `perform`; the model has no such exit.
- Connect.ConnectNotifier.Execute: does not write the stack trace the source prints unconditionally on the logger's stream when the HTTP exchange fails (ConnectNotifier.java:256). Its text is JDK output; the model writes nothing on that path before the `Error` is thrown.
- The connect null-response check. It logs and then dereferences the response anyway, and OkHttp's `execute` never returns null, so it is unreachable.
- Null values the source would dereference and fail on. These are a null `useMasterProxy` (modelled as `bool`), a null appconnect build result, a null workspace or token, and a null url handed to the request builder. Each is modelled as a present value.
- Concurrent access to the connect logger cache. The model is single-threaded.
- The exception classes that are declared but never thrown (`ConnectException`, `IncappticServerException`), the Jenkins descriptors, form validation and extension registration. These are framework integration.
- The message text of an `AppConnectException`. The exception is modelled by the url and the code its message names.
- A null appconnect configuration name. The source formats it into the glob "glob:null" and goes on; the model's names are strings, so that glob is only reachable through the compiled-matcher parameter.
- The methods `Connect.ConnectNotifier.Execute` and `Upload`, and `AppConnect.AppConnectNotifier.ProcessConfig` and `UploadAll`, do not exist in the source. They are parts of the two `perform` methods split out to keep each proof small, and they keep the source's statement order and side effects.
- The module-level `Log` methods (and `Connect.Emit`) do not exist in the source either. Each one issues, per message, the same logger call with the same text that the source makes at that point.
