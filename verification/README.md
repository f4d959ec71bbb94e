# Safety properties of the homelab service

The service lets an operator's agent read and change machines, a Ceph cluster and Grafana
dashboards. What makes that acceptable is a set of small protocols and parsers with exact promises:
an error that invites a retry is never returned for a change that may have happened, a deploy's
answer says truthfully whether remote work was started, a certificate is only signed with a token
that was just found valid, and text that crosses a boundary is read back as it was written. This
project models those protocols and parsers in Dafny and proves the promises for every input, every
interleaving and every run. Where the code breaks a promise in a corner, the exact condition is
proved instead.

`dafny verify dfyconfig.toml` checks everything.

## How the model is built

- Concurrent protocols (deploy runner, Ceph client, Grafana client) are step relations over any number
  of tasks; `Reachable` collects the states of all interleavings, including calls that are dropped at
  an await point, deadlines that strike at any time and a worker task that dies.
- Loops and objects of the source are methods and classes proved against specification functions:
  the uv select loop and its handles, the bounded readers, the frame printer and parser, paged
  lookup, panel flattening, the list normalisers, the token cache, the SSH helper with its exceptions
  and `finally` blocks, agent-first authentication, the insert loops of the configuration.
- `*Proofs` say what every run keeps. `*Causes` say why a run ended as it did: every answer is traced
  back to the replies and events of its own call. `*Runs` are concrete runs, successful and unlucky.
- Readers of replies and fields have, beside the function that follows the code, a table over the
  raw fields (`...Table`, `...Iff`) that says for every input which result it is.
- The network, processes, files and the clock are values the environment chooses freely: replies,
  chunkings of streams, completion orders, raised exceptions, deadline events.
- Bytes are `string`s with one character per byte where the source works on bytes
  (`SystemInfo`, `SshKeys`, `Base64`, `ResourceLinks`).

| files | part of the repository |
|---|---|
| `DeployRunner`, `DeployProofs`, `DeployCauses`, `DeployRuns`, `UvLoop`, `DeployErrors` | one deploy attempt: caller, worker, permit, channels, the uv loop |
| `SystemInfo`, `ByteText` | the printed system information and the parser of its frames |
| `CephReplies`, `CephProtocol`, `CephProofs`, `CephCauses`, `CephRuns`, `OsdLookup` | the Ceph client under concurrency and its OSD lookup |
| `GrafanaPermits`, `GrafanaCauses`, `GrafanaLists`, `GrafanaFields`, `Panels` | the Grafana client's permits and bounded normalisers |
| `TokenCache`, `SshHelper`, `SshProofs`, `SshCauses`, `SshRuns`, `PasswordAuth` | the operator's SSH helper and agent-first authentication |
| `SshKeys`, `Base64`, `ResourceLinks`, `ResourceQueries`, `Naming` | checks and encodings that must agree with each other |
| `BoundedRead`, `Bounds`, `Json`, `RustText`, `Decimals`, `Tally`, `Wrappers` | shared vocabulary |

## What the proofs found

Each promise below fails in a corner. For each there is a run or an input that shows it and the exact
condition for all runs or inputs.

- A token the SSH helper knows to be bad can stay in its cache: exactly when the run breaks off between
  the verdict and the clearing, because the revocation is interrupted, the warning that it is unconfirmed
  cannot be printed, or the clearing raises (`SshProofs.CacheIsClean`; the runs are
  `SshRuns.KeptWhenInterrupted`, `KeptWhenWarningRaises` and `KeptWhenClearingRaises`).
- `docs/deploys/deploy-workflow.md` says that logout always clears the cache. A file that was there stays
  exactly when the arguments are refused, the load raises, the `bao` executable is missing or the clearing
  raises (`SshProofs.LogoutClearsIff`; `SshRuns.LogoutCanKeepTheToken` is a logout without `bao`).
- A token the helper has just obtained can end up neither cached nor the subject of a revocation command:
  exactly when storing it fails or its lookup is interrupted (`SshProofs.NewTokensAreAccountedFor`;
  `SshRuns.LostWhenNotStored` and `LostWhenInterrupted`). The same document promises revocation for new
  tokens that are invalid or indeterminate, and does not mention these two cases.
- `docs/ceph/spec/common.md` says that no action retries automatically. A query goes on to a second attempt
  exactly when its first reply has status 401 or 403 (`CephProofs.RetryIff`), and in every run a client call
  sends a second request only after such a reply (`CephProofs.SecondRequestWasRefused`).
  `CephRuns.QueriesCanBeSentTwice` is a run with two requests, `CephRuns.RefusedWithoutASecondRequest` one
  whose second attempt ends before its request. Mutations are never sent twice
  (`CephProofs.AtMostOneGuardedMutation`).
- A caller can be told that a deploy's outcome is open although uv was never started: exactly when the
  worker died before starting it (`DeployProofs.OutcomesAreTruthful`; `DeployRuns.OpenWithoutAStart`).
- A caller that holds its answer can be told Busy on its next attempt (`DeployRuns.BusyAfterAResult`), since
  Busy is answered exactly while another call holds the permit (`DeployProofs.BusyIff`).
- The system-information script cuts each section at a byte, so, if its output reaches the parser
  unchanged, text with multi-byte characters can become unreadable (`SystemInfo.HeadCanCutACharacter`); `SystemInfo.PrintedParsesIff`
  gives the exact condition under which a printed report survives.
- The closing marker of a section starts and ends with a newline. A value is read back exactly when
  the marker does not occur in the value followed by a newline (`SystemInfo.TakeFrameIff`), which is more
  than not occurring in the value (`SystemInfo.ClosingCanStraddle`).

## Model

| member | source | states |
|---|---|---|
| DeployProofs.OutcomesAreTruthful | src/integrations/deploys/runner.rs:244-476 | In every interleaving a returned answer is true: after uv was started only a report, unreadable output or an open outcome is returned; an answer that says nothing ran means that uv was never started; without a start the outcome is called open exactly when the worker died. |
| DeployCauses.AnswersHaveCauses | src/integrations/deploys/runner.rs:244-476 | In every run each answer has its cause among what happened to its own call: a rejection a failed file, process or key operation, a cancellation the caller's own, a credential error the signer's refusal with that error or a malformed key file, a missing pin an unusable pin, each open outcome its own kind of wake-up, failed start or death, a report an exit with code 0 and the output that was captured. |
| DeployCauses.UvIsPrepared | src/integrations/deploys/runner.rs:280-343 | uv is started only with a canonical host key and only after exactly the fourteen successful steps of the worker, in order: checks, run directory, key pair, signature, certificate, known hosts, inventory. |
| DeployCauses.MissingHostPinIff | src/integrations/deploys/runner.rs:257-294 | An admitted call that was not cancelled and kept its worker is refused for its host key exactly when the machine has none in canonical form. |
| DeployRuns.DeployCanSucceed | src/integrations/deploys/runner.rs:244-353 | For every accepted host key and every parseable output of at most 512 KiB there is a run that returns exactly the parsed sections, with the run directory removed and the permit back. |
| DeployRuns.OpenWithoutAStart | src/integrations/deploys/runner.rs:269-276 | A run exists in which a worker dies before uv is started and its caller is told that the outcome is open. |
| DeployProofs.ReportedSectionsWerePrinted | src/integrations/deploys/runner.rs:343-352 | Sections are reported only if this call's own uv run printed, within 512 KiB, an unambiguous rendering of exactly those sections. |
| DeployProofs.ReturnedResultsStand | src/integrations/deploys/runner.rs:264-276 | No later move changes an answer, nor makes an answer that nothing ran untrue. |
| DeployProofs.StoredPinsAreNotMissing | src/integrations/deploys/runner.rs:257-293 | A host key the inventory accepts is never the reason for a missing-pin answer, in any run. |
| DeployProofs.OneWorker | src/integrations/deploys/runner.rs:251-268 | At most one worker is live in any reachable state, and then the permit is taken. |
| DeployProofs.BusyWhileWorkerLives | src/integrations/deploys/runner.rs:251-255 | Every attempt while a worker lives is answered with Busy and changes nothing else. |
| DeployProofs.BusyIff | src/integrations/deploys/runner.rs:251-255 | An attempt is answered with Busy exactly when another call holds the permit. |
| DeployProofs.FreePermitMeansClean | src/integrations/deploys/runner.rs:264-268 | Whenever the permit is free no worker is live and no run directory is in use: its removal was tried first, on every path. |
| DeployProofs.DirectoryIsLeftIff | src/integrations/deploys/runner.rs:651-656 | A run directory is left behind exactly by a removal that was tried and failed; a removed one stays removed. |
| DeployProofs.VanishingKeepsThePermit | src/integrations/deploys/runner.rs:260-276 | A caller that vanishes frees no permit, and its worker counts as cancelled from then on. |
| DeployProofs.EarlyCancellationPreventsUv | src/integrations/deploys/runner.rs:288-310 | A call cancelled or abandoned before the check that precedes signing never starts uv, in any continuation. |
| DeployCauses.EarliestCancellationLeavesNothing | src/integrations/deploys/runner.rs:288-295 | A call cancelled before its worker's first check never gets a run directory, in any continuation. |
| DeployCauses.CancellationEndsWaiting | src/integrations/deploys/runner.rs:310-313 | A worker that waits for the key pair, the signer or uv can stop on a cancellation at once, exactly when there is one, and then says whether uv was started. |
| DeployProofs.RunsAreBounded | src/integrations/deploys/runner.rs:244-353 | Apart from wake-ups that bring nothing, a run makes at most 33 moves per call. |
| DeployProofs.StuckOnlyWhenDone | src/integrations/deploys/runner.rs:244-353 | Where no move is possible, answers of processes and of the signer included, every caller has its answer or is gone, every worker ended, the permit is back and no directory is in use. |
| DeployRuns.BusyAfterAResult | src/integrations/deploys/runner.rs:264-268 | A run exists in which a second attempt gets Busy although the first caller already holds its answer, because the answer is sent before the permit is released. |
| DeployProofs.ApplyIsGood | src/integrations/deploys/runner.rs:244-476 | Each move keeps the invariant of all calls, conserves the permit, leaves other calls alone and, unless idle, brings the run closer to its end. |
| UvLoop.RunUv | src/integrations/deploys/runner.rs:442-475 | The select loop over any schedule of wake-ups gives the specified outcome; no finished reader is polled again; every way out has waited for the child and joined both readers; the group is killed exactly on ways out that precede the child's exit. |
| UvLoop.TerminateGroup | src/integrations/deploys/runner.rs:490-509 | Kills only while the leader has not exited, always waits for the leader and ends every reader it is given. |
| UvLoop.OrderDoesNotMatter | src/integrations/deploys/runner.rs:456-475 | Without cancellation, deadline or failure the result is the standard output if the exit code is 0 and an open outcome otherwise, in whatever order exit and streams complete, and comes with the last missing completion. |
| UvLoop.UsefulAtMostMissing | src/integrations/deploys/runner.rs:456-475 | At most three wake-ups bring something. |
| UvLoop.CancelWins | src/integrations/deploys/runner.rs:467-469 | While the loop runs, cancellation wins over everything that is ready at the same time. |
| UvLoop.ResultsOfLoop | src/integrations/deploys/runner.rs:457-474 | Success means that the child reported exit code 0 and the result is what standard output held; any other result is an open outcome. |
| UvLoop.OkIff | src/integrations/deploys/runner.rs:457-466 | In every schedule success is exactly a loop left complete with exit code 0, and its value is the captured output; complete with any other exit the outcome is open. |
| UvLoop.WakeUpDecides | src/integrations/deploys/runner.rs:467-475 | Which wake-up of a running loop yields which error or completes it, over all schedules: cancellation first, then the deadline, then the first news of child, standard output and standard error. |
| UvLoop.SomeWakeUpDecided | src/integrations/deploys/runner.rs:456-475 | Every finished loop was decided by one wake-up, and later ones do not count. |
| UvLoop.DrainedIsCaptured | src/integrations/deploys/runner.rs:450-524 | What the bounded reader returns at the limit for standard output is within the bound the protocol relies on. |
| BoundedRead.Drain | src/integrations/deploys/runner.rs:511-543 | The reader returns the whole stream if it ends without failure within the limit and nothing otherwise. |
| BoundedRead.ContentOfChunks | src/integrations/deploys/runner.rs:511-543 | Where the stream was cut into chunks does not matter. |
| BoundedRead.FailedContent | src/integrations/deploys/runner.rs:511-543 | Output whose reading fails before its end is lost, whatever was received. |
| BoundedRead.ReadLimited | src/integrations/ceph/client.rs:590-608 | A body is judged by its declared length, then by the bytes received before any failure. |
| BoundedRead.LimitedBodyIff | src/integrations/ceph/client.rs:590-608 | A body is returned whole, whatever its chunking, exactly when it fits the limit and declares no more than the limit. |
| BoundedRead.LimitedBodyFails | src/integrations/ceph/client.rs:590-608 | A body whose reading fails is too large if it was declared or already received as such, and unreadable otherwise. |
| SystemInfo.RunScript | deploys/lib/system_info.py:9-31 | The script prints the begin marker, the frames of all sections in order with at most 32768 bytes each, and the end marker. |
| SystemInfo.ParseStdout | src/integrations/deploys/normalize.rs:34-68 | The loop over the sections yields the map of the parsed values, or fails where the specification fails. |
| SystemInfo.SectionMapHolds | src/integrations/deploys/normalize.rs:48-67 | With distinct names the map of sections has exactly these names, and each section is found under its own. |
| SystemInfo.TakeFrameIff | src/integrations/deploys/normalize.rs:50-62 | A frame yields a value and a rest exactly when the text is the printed frame of that value followed by the rest and the value is frameable. |
| SystemInfo.ClosingCanStraddle | src/integrations/deploys/normalize.rs:52-57 | For every section there is a value without the closing marker that does not come back from its own frame, because the marker overlaps the newline after it. |
| SystemInfo.ParseFramesIff | src/integrations/deploys/normalize.rs:48-66 | Reading all frames and printing them are inverse on exactly the frameable values. |
| SystemInfo.PayloadIff | src/integrations/deploys/normalize.rs:36-47 | The text between the markers is the payload exactly when the end marker occurs neither in it nor after its own occurrence. |
| SystemInfo.ParseIff | src/integrations/deploys/normalize.rs:34-68 | The parser accepts exactly the UTF-8 texts that are noise, begin marker, the frames in order, end marker and noise without stray markers, and returns the values of those frames. |
| SystemInfo.RenderedParsesIff | src/integrations/deploys/normalize.rs:34-68 | A rendering of values parses back to them exactly when it is UTF-8 and unambiguous. |
| SystemInfo.RenderingIsUnique | src/integrations/deploys/normalize.rs:36-47 | An accepted output determines the noise around its values. |
| SystemInfo.PrintedParsesIff | deploys/lib/system_info.py:11-50 | End to end: the script's output, written by the callback amid other log text, is read back as the bounded outputs exactly when each is UTF-8, without NUL, end marker or closing marker, and the surrounding text is UTF-8 and free of the markers. |
| SystemInfo.HeadCanCutACharacter | deploys/lib/system_info.py:15-15 | A command's output can be valid text while its first 32768 bytes are not. |
| SystemInfo.CallbackOutputIs | deploys/lib/system_info.py:33-50 | The callback writes nothing for no output, and otherwise the output with its last line ended and nothing else. |
| SystemInfo.V1IsRegular | src/integrations/deploys/normalize.rs:8-20 | The eleven section names and the markers of version 1 have the properties the theorems assume. |
| ByteText.FindsWrittenIff | src/integrations/deploys/normalize.rs:41-56 | Searching for a marker that may overlap itself finds it where it was written exactly when it does not already occur across the text before it. |
| ByteText.ValidUtf8Iff | src/integrations/deploys/normalize.rs:35-35 | The byte strings accepted as UTF-8 are exactly the encodings of sequences of Unicode scalar values (section 3 of RFC 3629). |
| RustText.ByteLengthIsUtf8 | src/integrations/ceph/normalize.rs:389-391 | Lengths are those of the UTF-8 encoding. |
| CephProofs.RetryableMeansNotSent | src/integrations/ceph/catalog.rs:73-115 | An error that invites a retry is returned only if no mutation was sent, whichever deadline struck; after a mutation was sent only success, a definite refusal or an unknown outcome is returned. |
| CephProofs.AtMostOneGuardedMutation | src/integrations/ceph/client.rs:316-360 | An execution sends at most one mutation, its own, even after a 401; destroy and purge only after the same execution saw the same OSD reported safe. |
| CephCauses.DestructionWasReportedSafe | src/integrations/ceph/client.rs:354-360 | In every run a destroy or purge is sent only after its own task received a successful whole reply whose body is an object with `is_safe_to_destroy` true. |
| CephCauses.PreflightIff | src/integrations/ceph/normalize.rs:125-137 | A preflight reply leads on to the mutation exactly when it succeeds and says true in a well-formed body, to the unsafe answer exactly when it says false, and to an invalid response exactly when it is not well formed. |
| CephReplies.ReportsSafeIff | src/integrations/ceph/normalize.rs:125-137 | A preflight body says that an OSD is safe, or not, exactly by a truth value in its field while its other fields are short lists and texts without control characters. |
| CephCauses.OutcomesHaveCauses | src/integrations/ceph/client.rs:316-631 | In every run each outcome of a task has its cause among the events of that task: a reply with the status or body it stands for, a failed login, a full client, an unusable URL, a timeout or the deadline. |
| CephCauses.MutationReplyIff | src/integrations/ceph/client.rs:362-380 | A mutation is completed exactly by a whole 200, accepted exactly by a whole 202 for a destroy or purge whose body is the task that deletes this OSD, and refused exactly by the 4xx replies, with 401 and 404 told apart. |
| CephCauses.DeadlineIff | src/integrations/ceph/catalog.rs:73-115 | The catalog's deadline reports an unknown outcome exactly when the mutation was sent, and a timeout otherwise. |
| CephRuns.ExecutionCanComplete | src/integrations/ceph/client.rs:253-360 | Every execution has a run that completes it, with exactly the log its kind asks for. |
| CephRuns.DestructionCanBeAccepted | src/integrations/ceph/client.rs:362-380 | A destroy or purge has a run that ends accepted with its own OSD's task. |
| CephRuns.ReadingCanAnswer | src/integrations/ceph/client.rs:382-433 | A reading has a run that answers after one login and one request. |
| CephProofs.CallsAreBounded | src/integrations/ceph/client.rs:382-457 | Within one client call a query sends at most two requests and two logins, a mutation one request and at most one login. |
| CephProofs.ExecutionsAreBounded | src/integrations/ceph/client.rs:253-360 | Over its whole life an execution sends at most two queries and three logins. |
| CephProofs.ReadingsAreBounded | src/integrations/ceph/client.rs:149-187 | Over its whole life a catalog query makes at most six client calls, and at most two requests and two logins for each. |
| CephProofs.RetryIff | src/integrations/ceph/client.rs:391-433 | An in-flight query goes on to clear its token and try again exactly when it is the first attempt and the reply has status 401 or 403; the number of its requests is the number of its attempt. |
| CephProofs.SecondRequestWasRefused | src/integrations/ceph/client.rs:382-433 | In every run of any number of tasks, a client call that has sent a second request received a 401 or 403 earlier in the same call. |
| CephRuns.QueriesCanBeSentTwice | src/integrations/ceph/client.rs:382-433 | A run exists in which one query is sent twice, each time after a login of its own. |
| CephRuns.RefusedWithoutASecondRequest | src/integrations/ceph/client.rs:405-418 | A run exists in which a query is refused with a 401 and its deadline strikes before a second request. |
| CephProofs.LoginsAreAccountedFor | src/integrations/ceph/client.rs:382-510 | For any number of tasks, stored logins are the cache clears plus the cached token, and at most one more than the refused tokens. |
| CephProofs.NewerTokenSurvives | src/integrations/ceph/client.rs:409-417 | A token leaves the cell only if it was itself refused; a late 401 on an older token discards nothing. |
| CephProofs.PermitsAreConserved | src/integrations/ceph/client.rs:459-575 | Free and held permits are four in every state, and no task waits for the token lock with a permit or the lock in hand. |
| CephProofs.NoDeadlock | src/integrations/ceph/client.rs:459-575 | While a task is unfinished, it or the task holding the lock can step without a deadline or a disappearance. |
| CephCauses.CapacityIff | src/integrations/ceph/client.rs:459-529 | A login or request is refused for want of capacity exactly when the tasks hold all four permits. |
| CephCauses.AbandonedIff | src/integrations/ceph/client.rs:459-575 | A task can be dropped, or hit by its deadline, exactly at its waits; then its permit and its lock go back and the cached token stays. |
| CephProofs.ApplyIsGood | src/integrations/ceph/client.rs:382-575 | Each step of any task keeps the invariants of the shared client and of all tasks, the permits and the logs. |
| CephReplies.ClassifyErrors | src/integrations/ceph/client.rs:512-631 | A reply to a mutation yields only errors possible after dispatch, a reply to a query never a mutation error. |
| CephReplies.ClassifyAnswers | src/integrations/ceph/client.rs:512-631 | A request counts as answered only for a success status and a body within the limit that decodes, or an empty one. |
| CephReplies.ClassifyTable | src/integrations/ceph/client.rs:512-631 | For every reply and kind of operation, by status, declared and received length, read failure and decoding: which answer or error it becomes. |
| CephReplies.LoginTable | src/integrations/ceph/client.rs:459-510 | A login reply grants a token exactly when it succeeds whole with a nonempty token of at most 16 KiB without control characters; which other reply becomes which error. |
| CephReplies.NumericOsdIdIff | src/integrations/ceph/normalize.rs:261-269 | A task names an OSD exactly by a 32-bit number or by its numeral, possibly behind zeroes, in at most ten characters. |
| OsdLookup.FetchOsd | src/integrations/ceph/client.rs:149-187 | The paged lookup follows its specification for any replies. |
| OsdLookup.PagedIsLinear | src/integrations/ceph/client.rs:149-187 | Over a consistently served inventory it equals a linear search of the first 500 entries. |
| OsdLookup.RecordIsTheRequestedOne | src/integrations/ceph/normalize.rs:72-91 | However the pages came about, a record carries the requested id, although only detail and inventory are compared with each other. |
| OsdLookup.NormaliseIff | src/integrations/ceph/normalize.rs:72-123 | Detail and inventory entry make a record exactly when both name the same OSD, by `id` or else by `osd`, and every text shown is short and free of control characters. |
| GrafanaPermits.PermitsAreConserved | src/integrations/grafana/client.rs:396-492 | Four request and two render permits are conserved in every state, whatever is dropped or refused; render permits are held only with a request permit. |
| GrafanaPermits.AllPermitsReturn | src/integrations/grafana/client.rs:494-601 | Once all calls are over all permits are back. |
| GrafanaPermits.ExhaustedMeansAllHeld | src/integrations/grafana/client.rs:412-421 | A call is refused for lack of capacity exactly when all permits of the kind it tried for are held. |
| GrafanaPermits.RetryableMeansNotSent | src/integrations/grafana/client.rs:522-594 | An error that invites a retry is never returned for a mutation that may have been sent. |
| GrafanaCauses.OutcomesHaveCauses | src/integrations/grafana/client.rs:396-601 | In every run each outcome of a call has its cause among its own events: a reply of the kind the tables give, a full client, a bad or too long URL, or its deadline; nothing is sent before the URL was found good. |
| GrafanaCauses.RejectedByReply | src/integrations/grafana/client.rs:565-582 | A mutation is reported as rejected only if its own reply had status 400. |
| GrafanaCauses.ReadTable | src/integrations/grafana/client.rs:546-594 | For every reply to a read: which answer or error it becomes. |
| GrafanaCauses.MutationTable | src/integrations/grafana/client.rs:546-594 | For every reply to a mutation: rejected exactly on a 400, unknown exactly when it is neither a refusal nor a whole answer. |
| GrafanaCauses.RenderTable | src/integrations/grafana/client.rs:454-492 | For every reply to a render: an image exactly from a whole 200 of type PNG that starts with the eight signature bytes; which other reply becomes which error. |
| GrafanaCauses.CallsGetThrough | src/integrations/grafana/client.rs:396-594 | A call by itself reaches its reply, ends with what the reply stands for, and gives both permits back. |
| GrafanaPermits.CallsNeverWait | src/integrations/grafana/client.rs:522-594 | No call waits for another: each unfinished one has a step of its own or is answered, without a deadline. |
| GrafanaPermits.RunsAreBounded | src/integrations/grafana/client.rs:396-594 | A run makes at most four steps per call. |
| GrafanaLists.NormalizeStreams | src/integrations/grafana/client.rs:1382-1406 | The nested loops return all streams cut to a common budget of lines, or fail where any entry is malformed. |
| GrafanaLists.BudgetTakesTheFirstLines | src/integrations/grafana/client.rs:1384-1404 | The lines kept over all streams are exactly the first `limit` of their concatenation. |
| GrafanaLists.NoStreamIsEmpty | src/integrations/grafana/client.rs:1401-1403 | No stream is kept without a line. |
| GrafanaLists.BudgetIsByShares | src/integrations/grafana/client.rs:1384-1404 | Each stream keeps its labels and its own first lines, as many as the streams before it leave. |
| GrafanaLists.EveryStreamIsChecked | src/integrations/grafana/client.rs:1386-1395 | A malformed stream fails the list wherever it stands and whatever the limit. |
| GrafanaLists.EveryLineIsChecked | src/integrations/grafana/client.rs:1394-1395 | A malformed line fails its stream wherever it stands. |
| GrafanaFields.StreamIff | src/integrations/grafana/client.rs:1387-1403 | A stream is read exactly from an object with text labels under `stream` and its lines, in order, under `values`. |
| GrafanaFields.LineIff | src/integrations/grafana/client.rs:1425-1442 | A log line is read exactly from a pair of texts whose first is a timestamp. |
| GrafanaFields.ParseI64Iff | src/integrations/grafana/client.rs:1430-1433 | The timestamps are exactly the decimal texts of 64-bit numbers: a numeral behind zeroes and a fitting sign. |
| GrafanaLists.SelectRules | src/integrations/grafana/client.rs:817-836 | The rules of one kind, in order, up to the limit; only the discriminator of the other entries is checked. |
| GrafanaLists.SelectedAreOfKind | src/integrations/grafana/client.rs:826-833 | Only rules of the kind asked for are selected. |
| GrafanaFields.KindIff | src/integrations/grafana/client.rs:826-833 | A rule counts as recording exactly when its `record` is an object, and as alerting exactly when that is absent or null. |
| GrafanaLists.KindsSplitTheRules | src/integrations/grafana/client.rs:826-833 | The alert and the recording rules together are all rules, each once. |
| GrafanaLists.NormalizeSilences | src/integrations/grafana/client.rs:886-969 | Validate all silences with their matchers and timestamps, then filter by state, then take the limit. |
| GrafanaLists.EverySilenceIsChecked | src/integrations/grafana/client.rs:893-914 | A malformed silence fails the list, wanted or not, before the limit or after it. |
| GrafanaLists.StatesSplitTheSilences | src/integrations/grafana/client.rs:916-922 | A filter keeps exactly the silences in its state: the three states split the list, and no filter keeps all. |
| GrafanaFields.SilenceIff | src/integrations/grafana/client.rs:893-922 | A silence is normalised exactly when each field is well formed, and each part of the result comes from its own field. |
| GrafanaFields.MatcherIff | src/integrations/grafana/client.rs:939-969 | A matcher is read exactly from a valid name, a bounded value and two flags, with the operator these stand for. |
| Panels.FlattenPanels | src/integrations/grafana/client.rs:1183-1217 | The recursive walk that pushes onto a shared vector leaves exactly the specified output, also when it fails. |
| Panels.FlattenIff | src/integrations/grafana/client.rs:1183-1217 | Flattening succeeds exactly for well-formed forests that fit into 500 entries and visit no panel array, even an empty one, past depth 64; the output is the old output followed by the pre-order listing. |
| Panels.SummaryIff | src/integrations/grafana/client.rs:1193-1209 | A panel is summarised exactly when id, title and type are well formed, each from its own field; a numeric id is printed in decimal. |
| TokenCache.WrittenReadsBack | deploys/lib/token_cache.py:95-136 | A stored document is read back as its record exactly when it was allowed to be stored. |
| TokenCache.ReadIsWritten | deploys/lib/token_cache.py:104-120 | Only the document of a record, within the size limit and with an acceptable token, reads as that record. |
| TokenCache.SpaceIs | deploys/lib/token_cache.py:127-128 | Which characters count as white space, by their code points. |
| TokenCache.StorableIff | deploys/lib/token_cache.py:126-135 | A token is stored only if it is one word of at most 16 KiB whose JSON document in ASCII has at most 65536 bytes. |
| TokenCache.RecordSizeIsLength | deploys/lib/token_cache.py:129-135 | The size that is checked is the length of the document text, escapes included. |
| TokenCache.SaveThenLoad | deploys/lib/token_cache.py:95-175 | A load after a save gives the token back to its own origin, and to any other origin nothing and an empty cache. |
| TokenCache.PrintableTokensFit | deploys/lib/token_cache.py:126-135 | A token of printable ASCII within its own limit is never refused for the size of the document. |
| TokenCache.Cache.Read | deploys/lib/token_cache.py:95-124 | A load finds the token of the expected origin, removes anything else that is readable, or raises and leaves the file; which of these is decided by the file and by which system calls succeed. |
| TokenCache.Cache.Write | deploys/lib/token_cache.py:126-165 | A save stores the record of an acceptable token or leaves the file as it was, also when it raises; which of these is decided by the token, the file and which system calls succeed. |
| TokenCache.Cache.Clear | deploys/lib/token_cache.py:167-175 | A clear removes the file, or raises and leaves it, exactly when the file is unsafe or cannot be removed. |
| SshHelper.Helper.Run | deploys/helpers/ssh_homelab.py:291-414 | However the world answers, fails or interrupts, a run follows the protocol and the world step by step, ends in its final stage with the returned exit, and leaves the cache as the protocol says. |
| SshCauses.RunsAreDetermined | deploys/helpers/ssh_homelab.py:291-414 | What the world does decides the whole run: in each world there is exactly one trace to an end, so a helper that ends there has done these steps and no others. |
| SshCauses.DriveIsFaithful | deploys/helpers/ssh_homelab.py:83-262 | In such a run every verdict, revocation, signing and login is what the reply of its own command stands for. |
| SshHelper.VerdictIff | deploys/helpers/ssh_homelab.py:135-184 | For every reply to a lookup, by its raw fields: valid exactly when it answered with a `data` object that meets the contract field by field, contract-invalid exactly when such an object does not, rejected exactly on a bounded failure with a rejection marker, indeterminate exactly otherwise. |
| SshHelper.RevocationIff | deploys/helpers/ssh_homelab.py:187-206 | A revocation is confirmed exactly by a bounded exit with code 0. |
| SshHelper.SigningIff | deploys/helpers/ssh_homelab.py:232-262 | A certificate is issued exactly by a written, nonempty and bounded output with code 0, and the token refused exactly on a bounded failure with a rejection marker. |
| SshHelper.Helper.LoginValidateAndSave | deploys/helpers/ssh_homelab.py:209-225 | A new token is handed on only after it was looked up valid and stored; otherwise the run ends by raising. |
| SshHelper.Helper.Reset | deploys/helpers/ssh_homelab.py:315-326 | Logout and re-authentication revoke the cached token and clear the cache even if the revocation is interrupted. |
| SshHelper.Helper.Certify | deploys/helpers/ssh_homelab.py:363-398 | A refused cached token is replaced once; a refused new token ends the run. |
| SshHelper.Helper.EvictCachedToken | deploys/helpers/ssh_homelab.py:335-384 | A cached token that is refused or breaks the contract is revoked, then warned about if that is unconfirmed, then cleared; whatever raises on the way ends the run there. |
| SshHelper.TokenIff | deploys/helpers/ssh_homelab.py:83-102 | A login yields a token exactly when it exits well with a bounded text that is this one word in white space. |
| SshProofs.LoginsAndSignings | deploys/helpers/ssh_homelab.py:348-398 | At most one login, and at most one more signing than logins. |
| SshProofs.SigningsAreJustified | deploys/helpers/ssh_homelab.py:348-398 | Every signing uses a token whose last verdict in this run is valid, and before it only the token found in the cache can have been refused. |
| SshCauses.SignedTokensConform | deploys/helpers/ssh_homelab.py:328-398 | Every signing uses a token for which the server, earlier in the run, gave an answer that meets the contract, and no answer since then speaks against it. |
| SshProofs.StoredTokensWereValid | deploys/helpers/ssh_homelab.py:209-225 | A token is cached only directly after a login returned it and a lookup found it valid. |
| SshCauses.StoredTokensConform | deploys/helpers/ssh_homelab.py:209-225 | A token is cached only directly after a login printed it as its one word and the server answered for it in accordance with the contract. |
| SshProofs.CacheIsClean | deploys/helpers/ssh_homelab.py:291-398 | At every exit the cache holds no token the run saw rejected, refused or breaking the contract, except exactly when the revocation before the clearing was interrupted, the warning before it could not be printed or the clearing raised. |
| SshRuns.KeptWhenInterrupted | deploys/helpers/ssh_homelab.py:335-343 | A run in which a contract-invalid token stays cached because its revocation is interrupted. |
| SshRuns.KeptWhenWarningRaises | deploys/helpers/ssh_homelab.py:337-343 | A run in which it stays cached because the warning raises. |
| SshRuns.KeptWhenClearingRaises | deploys/helpers/ssh_homelab.py:345-347 | A run in which a rejected token stays cached because the clearing raises. |
| SshProofs.IndeterminateKeepsTheCache | deploys/helpers/ssh_homelab.py:328-333 | A lookup of the cached token without an answer ends the run by raising and leaves the cache file as it was found. |
| SshProofs.SessionsUseTheCachedToken | deploys/helpers/ssh_homelab.py:348-414 | A session is opened with a certificate for the token the cache still holds and that the run last found valid. |
| SshProofs.BadTokensAreRevoked | deploys/helpers/ssh_homelab.py:187-225 | After a refusal, a broken contract, or a new token not found valid, the next thing the run does is to run, or try to run, a revocation of that token. |
| SshCauses.RevocationsAreDue | deploys/helpers/ssh_homelab.py:291-398 | A revocation is tried only for the cached token of a logout or renewed authentication, or directly after the command that found its token unusable. |
| SshCauses.LoginsAreNeeded | deploys/helpers/ssh_homelab.py:315-349 | A login happens only in a connection that found no token, was asked to authenticate again or has learned that the token is bad, and only with an empty cache. |
| SshCauses.ReauthStartsOver | deploys/helpers/ssh_homelab.py:314-327 | With `--reauth` every lookup and every signing comes after a new login. |
| SshCauses.EndsHaveCauses | deploys/helpers/ssh_homelab.py:291-414 | Every end of a run has its cause in it: each failure an answer or a system call of its kind, an exit code the session that returned it. |
| SshRuns.CachedTokenConnects | deploys/helpers/ssh_homelab.py:328-414 | A run in which a valid cached token opens the session and stays cached. |
| SshRuns.NewTokenConnects | deploys/helpers/ssh_homelab.py:348-414 | A run in which a new token is obtained, checked, cached and opens the session. |
| SshRuns.RefusedTokenIsReplaced | deploys/helpers/ssh_homelab.py:376-393 | A run in which a cached token that is refused while signing is revoked, forgotten and replaced, and the new one opens the session. |
| SshRuns.LogoutSucceeds | deploys/helpers/ssh_homelab.py:295-309 | A run in which a logout revokes the cached token and leaves no file. |
| SshProofs.LogoutForgets | deploys/helpers/ssh_homelab.py:295-309 | A logout that returns leaves no cache file and has run, or tried to run, a revocation of the token it found. |
| SshProofs.LogoutClearsIff | deploys/helpers/ssh_homelab.py:292-309 | However a logout ends, no cache file is left exactly when there was none or it did not stop at refused arguments, a raising load, a missing executable or a raising clear. |
| SshRuns.LogoutCanKeepTheToken | deploys/helpers/ssh_homelab.py:294-302 | A logout without its executable ends with the token still cached. |
| SshProofs.NewTokensAreAccountedFor | deploys/helpers/ssh_homelab.py:209-225 | At every exit a token the run logged in for is cached, or a revocation command for it was run or at least tried to start, except exactly when storing it failed or its lookup was interrupted. |
| SshRuns.LostWhenNotStored | deploys/helpers/ssh_homelab.py:224-225 | A run in which a valid new token is neither cached nor revoked because it cannot be stored. |
| SshRuns.LostWhenInterrupted | deploys/helpers/ssh_homelab.py:210-211 | A run in which a new token is neither cached nor revoked because its lookup is interrupted. |
| SshProofs.RunsAreBounded | deploys/helpers/ssh_homelab.py:291-414 | A run takes at most 15 steps. |
| SshProofs.StagesAreJustified | deploys/helpers/ssh_homelab.py:328-398 | A token is used only while the last word on it is that it is valid, and dropped only after the last word was that it is not. |
| PasswordAuth.Authenticate | deploys/lib/password_auth.py:99-179 | Success exactly when one of the first four agent keys is accepted for good after refusals only and the agent closes, or the password is asked for and accepted for good; the password is asked for exactly when it is offered and the agent part left nothing but refusals. |
| PasswordAuth.TryAgent | deploys/lib/password_auth.py:123-155 | Keys are tried in order up to the first that is not refused, at most four; an opened agent is closed on every path and a failing close replaces the result. |
| PasswordAuth.AgentTable | deploys/lib/password_auth.py:123-155 | For every end of the agent part, which error is reported: a failing close before all else, then listing the keys, then the last key tried. |
| PasswordAuth.PasswordTable | deploys/lib/password_auth.py:157-174 | For every end of the password attempt, its getter included, which error is reported. |
| PasswordAuth.ValidListIff | deploys/lib/password_auth.py:115-120 | A method list is valid exactly when it has at most sixteen nonempty texts of at most 64 characters. |
| PasswordAuth.AgentIsClosedOnce | deploys/lib/password_auth.py:123-155 | An opened agent is closed exactly once, an unopened one never; each key and the password are tried at most once. |
| PasswordAuth.KeySuccessIsFinal | deploys/lib/password_auth.py:127-143 | At most one key succeeds, and then the password is not asked for. |
| PasswordAuth.LazySecret.Reveal | deploys/lib/password_auth.py:23-39 | The getter is asked only while no value is remembered, and an empty value is not remembered. |
| PasswordAuth.FirstValueStays | deploys/lib/password_auth.py:33-39 | Over any number of uses the first value that is not empty is the secret, and it stays. |
| SshKeys.StoredPinsAreRunnable | src/integrations/deploys/runner.rs:622-642 | The inventory's check and the runner's check accept exactly the same texts. |
| SshKeys.InventoryAcceptsIff | src/inventory.rs:330-359 | The length-prefixed check (section 5 of RFC 4251) accepts exactly the canonical texts of the 32-byte public keys. |
| SshKeys.RunnerAcceptsIff | src/integrations/deploys/runner.rs:622-642 | The fixed-offset check accepts exactly the canonical texts of the 32-byte public keys. |
| SshKeys.SshStringIff | src/inventory.rs:353-359 | A length-prefixed string is read at an offset exactly when its encoding stands there and fits. |
| SshKeys.CaBlobIff | deploys/lib/ssh_credentials.py:28-31 | The operator tool's check of the authority key accepts exactly the blobs of section 4 of RFC 8709. |
| SshKeys.PinNamesOneKey | src/integrations/deploys/runner.rs:622-642 | Different keys have different texts. |
| Base64.DecodeIff | src/inventory.rs:342-344 | The strict decoder (section 4 of RFC 4648) accepts exactly the encodings, each for its own bytes. |
| Base64.GroupIsNumber | src/inventory.rs:342-344 | A group is the number its three bytes make, written with four digits to the base 64. |
| Base64.PaddingIsZero | src/inventory.rs:342-344 | A last group of one or two bytes is that of the bytes with zeroes, with padding for what is missing. |
| Base64.SymbolIs | src/inventory.rs:342-344 | The digits are the standard alphabet in its order. |
| ResourceLinks.DecodeEncode | src/mcp/resources.rs:252-256 | Percent-decoding undoes percent-encoding for all byte strings. |
| ResourceQueries.EncodeCharIs | src/mcp/resources.rs:9-13 | Only letters, digits and four marks stand for themselves; every other byte becomes its two upper-case hexadecimal digits. |
| ResourceQueries.HexIff | src/mcp/resources.rs:312-316 | Hexadecimal digits are read in both cases. |
| ResourceQueries.StrayPercent | src/mcp/resources.rs:312-316 | A percent sign stands for itself exactly when no two hexadecimal digits follow it. |
| ResourceLinks.ParseUri | src/mcp/resources.rs:325-360 | The loop over the query parameters gives the specified route, input and filter or the first error. |
| ResourceLinks.AcceptAllIff | src/mcp/resources.rs:337-358 | Parameters are taken exactly when each is known, well-formed and given once, and then each has the value of its own pair. |
| ResourceQueries.QueryIsRead | src/mcp/resources.rs:336-338 | The server reads from a query exactly the parameters that were encoded into it, in order, each key with its value. |
| ResourceQueries.ListingIsRead | src/mcp/resources.rs:325-360 | A listing asked for with an input and a filter is read with exactly these. |
| ResourceQueries.ItemIsRead | src/mcp/resources.rs:312-360 | An item asked for with an input and a filter is read with exactly these and its own identity, unless the identity is malformed or the input names one already. |
| ResourceQueries.CollectionsAreRead | src/mcp/resources.rs:15-61 | Each of the nine listings is read as itself. |
| ResourceLinks.LinkResolvesIff | src/mcp/resources.rs:312-360 | A link leads back to its identity, with empty input and no filter, exactly when the identity is nonempty UTF-8 without a slash and the link has at most 8192 bytes. |
| ResourceLinks.EnrichedLinksResolve | src/mcp/resources.rs:214-259 | Enriching changes no other field of an item, and every link it writes leads back to that item's identity. |
| ResourceLinks.Output.EnrichCollection | src/mcp/resources.rs:214-259 | By route, every item of a dashboard or cluster listing is rewritten in place, each by its own identity; any other value stays as it was. |
| ResourceLinks.OnlyItemsChange | src/mcp/resources.rs:214-258 | Enriching keeps the number and order of the items, and everything around them. |
| ResourceQueries.LinkedListings | src/mcp/resources.rs:214-229 | The items of dashboards are the result itself, those of clusters the list within it. |
| ResourceQueries.DashboardLink | src/mcp/resources.rs:214-259 | A dashboard with a valid uid gets its link as text under `resource_uri`. |
| ResourceQueries.CapabilitiesLink | src/mcp/resources.rs:214-259 | A cluster with a valid name gets its link as text under `capabilities_uri`. |
| Naming.ConfirmationIsInjective | src/integrations/ceph/actions.rs:492-494 | A confirmation names one action on one OSD of one cluster. |
| Naming.OneConfirmationOneCommand | src/integrations/ceph/actions.rs:425-478 | Two accepted destructive requests share a confirmation exactly when they are the same command. |
| Naming.ValidateIff | src/integrations/ceph/actions.rs:425-478 | For every request and command: accepted as this command exactly when it is the request of the same kind with the same fields, a valid name and, to destroy or purge, the exact confirmation of its own kind. |
| Naming.ConfirmationText | src/integrations/ceph/actions.rs:457-494 | What an administrator types to destroy or purge, and that the one text does not do for the other. |
| Naming.ValidClusterIff | src/integrations/ceph/actions.rs:496-510 | A cluster name is 1 to 63 lower-case letters, digits and inner hyphens. |
| Naming.VariableIsInjective | src/config.rs:528-530 | Valid cluster names and credentials determine different environment variables. |
| Naming.VariableText | src/config.rs:528-530 | The variables of a cluster as they are set. |
| Naming.ParseCephClusters | src/config.rs:511-558 | The loop over the configured clusters yields the specified list or the first error. |
| Naming.ParseIff | src/config.rs:525-558 | The entries are accepted exactly when each is usable and all names differ. |
| Naming.ParsedClusters | src/config.rs:525-556 | The clusters are the entries in their order, each with its own origin, user name and password. |
| Naming.ParseErrors | src/config.rs:531-548 | A configuration is refused for its first unusable entry, with the variable that is missing, the user name's before the password's, only if all else about the entry is right. |
| Naming.VariablesAreDistinct | src/config.rs:525-558 | No credential variable is read twice by an accepted configuration. |
| Naming.NewCatalog | src/integrations/ceph/catalog.rs:19-33 | The insert loop accepts exactly at most 32 distinct valid names and then maps each to its client; each error names what is wrong with the first entry that cannot be added. |
| Naming.AcceptedConfigurationsMakeACatalog | src/integrations/ceph/catalog.rs:19-33 | Every accepted configuration meets the catalog's own conditions. |

## Left out

- Kubernetes, Tekton, OAuth and OIDC, telemetry, profiling, the Pulumi programs and the bootstrap shell script: libraries and infrastructure, or validators with one branch each.
- Dispatch from MCP tools to actions (`src/mcp/tools.rs`, handlers in `src/mcp.rs`) and the lookup of skill resources: repeated plumbing.
- SQL, TLS, process creation, file kinds and permissions: their results are chosen by the environment; `TokenCache` folds every refused kind, owner or mode into one case.
- JSON decoding and form decoding of invalid UTF-8: parameters or already decoded values. Percent-decoding, splitting at `&` and `=` and the plus sign are modelled.
- The normalisation of ordinary query answers of the Ceph dashboard, and the text of its tokens: a login that grants a token grants one that no earlier login granted.
- Wall-clock time: deadlines are events that may strike at any await point; no delay is bounded.
- Descendants of a killed process group: only the leader is waited for, so nothing is claimed about processes it started.
- Classification of diagnostic output (`classify_uv_stderr`, the rejection markers of the SSH helper) and URL-like text filters: a free choice of the environment.
- Floating-point fields, RFC 3339 formatting: a weight is a real number or not finite, and a log line keeps its nanoseconds.
- SystemInfo.PrintedParsesIff: the deploy library hands the script's output to the callback as text; how it reads and decodes the bytes is not part of this model, which takes them to arrive unchanged. The same holds for what follows from SystemInfo.HeadCanCutACharacter.
- DeployProofs.StuckOnlyWhenDone: that a process exits or the signer answers is a possible move, not a promise; nothing is said about how long it takes.
- Signals that arrive between two operations of the SSH helper, and failures to remove its temporary directory: exceptions come out of commands, cache operations, warnings and local work.
- Other writers of the token cache: the file changes only through the helper during its run.
- Further validation of certificate lifetimes, URLs of OpenBao and the SSH command line: straight-line checks.
- GrafanaLists.NormalizeSilences: how a timestamp is parsed and rewritten is a parameter, because RFC 3339 is not part of this model.
- GrafanaLists.SelectRules: the later normalisation of each selected rule is not part of this model.
- TokenCache.Cache.Write: the temporary file and its replacement are one system call that succeeds or not, the directory flush another.
