# DeepIntShield client: a verified model of its protocols and algorithms

The DeepIntShield Python client hands a program over to a gateway, reads chat streams, runs a single-use
worker, decides which credential a call sends, reports executions, and rewrites arguments and request
bodies. This project models the parts of it whose correctness is not visible in one function and proves
what they are for. `dafny verify dfyconfig.toml` checks everything.

## Components

| files | what is modelled |
|---|---|
| `Handoff`, `HandoffExits`, `HandoffProtocol`, `HandoffProcess` | the engines of one process and their gateway: the capability probe, packaging, submission, polling, and the choice to run here or on the server, over every interleaving of invocations and every answer |
| `Packager`, `PackagerImports` | the worklist that collects a script and its local imports within file and byte limits, and what an import needs |
| `Utf8`, `SseLines`, `ChatEvents`, `ChatText`, `ChatStream`, `ChatRoundTrip` | the server-sent-event reader, from bytes in chunks to decoded objects (section 9.2.5 and 9.2.6 of the WHATWG HTML Living Standard; section 3 of RFC 3629) |
| `Worker`, `WorkerProtocol` | the single-use worker: claim, stage, start grant, program, answer, exit, with concurrent requests, stop signals and a gateway |
| `Staging`, `RemoveTree`, `Output` | the worker's algorithms: allowed file sets and the tree written for them, deletion without recursion, output within a byte and a JSON bound (section 7 of RFC 8259) |
| `Credential`, `CredentialProtocol`, `CredentialOffers`, `CredentialHistory` | the credential fields of the engine, one authorization call between any other activity, and the age of the answers it acts on |
| `Lifecycle`, `LifecycleProtocol`, `LifecycleReports`, `ScopeOrder` | execution scopes that are left in any order, the bounded queue and its four workers |
| `Redaction`, `CardNumbers`, `Obligations`, `ObligationPromises` | Luhn check (ISO/IEC 7812-1, Annex B), the card-number scan, redaction of positional and keyword arguments |
| `GeminiCache`, `PromptCache`, `PromptCachePlaces`, `Identity`, `IdentityForms`, `SubjectCache`, `ExceptionWalk` | the cache registry, Anthropic marker injection, canonical subjects and their LRU cache, flattening of exception groups |

Objects whose methods update fields are classes here; their methods are proved against functions over a
value of the state, and the properties are lemmas about those functions, mostly over every run. What the
network, the clock, the file system, the gateway, JSON and the Python parser give are parameters.

## Findings

Some statements hold only under a condition; the model keeps the code as it is and proves the condition.

- What is handed over is the one script of the process, while the choice to run here is remembered by each
  engine, although the docstring of `handoff_if_enabled` promises it of the program (`managed_execution.py:504`).
  No run has the script run here and on the server exactly when each engine that may be offered server
  runs has security on at every invocation and gets no offer with the local fallback and without submission
  ids, and no other engine of the process may let the script run here (`HandoffProcess.SafeExactlyWhenApart`).
  Each clause has a run that needs it (`TwoEnginesRunTwice`, `UnsecuredRunsTwice`, `UnguardedRunsTwice`). One
  engine alone with security on is safe exactly without such offers (`HandoffProcess.SafeExactlyWhenGuarded`).
- A stack has one frame for each engine in whatever order scopes end, but it says which scopes are open exactly
  as long as they are left innermost first (`ScopeOrder.ExactExactlyWhenOrderly`). Two interleaved streams of one
  context leave a finished frame behind (`ScopeOrder.InterleavedStreams`); once all scopes are left, the stack is
  the first one exactly if the scope left last was entered on it (`ScopeOrder.RestoredExactlyWhenLastIsOuter`).
- Pending prefixes of the Gemini registry are exactly the creations under way unless the pool refuses one, a
  creation gives an empty name, or it ends in an exception that is not an ordinary one; such a slot is never
  free again (`GeminiCache.PendingIsInFlight`, `GeminiCache.LostForGood`), and each of the three happens
  (`GeminiCache.ClaimsAreLost`).
- Two identifiers with different digests share a canonical id exactly when one is kept verbatim and is the
  stem and digest of the other (`Identity.SharedExactlyWhenSpelled`). For every identifier that carries a
  digest there is such another (`Identity.EveryDigestCanBeSpelled`); two that carry different digests never
  collide.
- The nested exceptions of a tree are all listed exactly when they are at most 64, no deeper than eight, and
  none is held only behind 64 others (`ExceptionWalk.ListsAllExactlyWhenSmall`; `TooDeep`, `TooMany` and
  `TooWide` fail one clause each). Where one is held at two depths the order decides: met at depth eight first,
  what it holds is left out for good (`ExceptionWalk.TooLate`), and otherwise not (`ExceptionWalk.SoonEnough`).
- Removing a directory tree that could go leaves what recursion would leave exactly when the walk comes to no
  directory that it cannot list, ask for or leave upwards (`RemoveTree.ExactWhenNotStopped`, `RemoveTree.UplessStays`).
- A call that sends no token is excused exactly when it does not read a credential that is gone since the
  unlocked test for it (`CredentialProtocol.CredentialsAreSound`, `CredentialProtocol.ResetBetweenReads`).
- The answer that excuses a call is at most an hour old where no credential was built, and of any age where
  one was (`CredentialHistory.AnswerWithoutCredentialIsRecent`, `CredentialHistory.SparedByOldAnswer`).
- Within a minute of a failed optional build, under the same answer, it is tried again exactly when there is no
  credential and the failure remembered last is one under another answer
  (`CredentialHistory.FailedBuildsAreApart`), which a call that comes late to remember its failure brings about
  (`CredentialHistory.LateRestRetries`).

- A separator does not end a number in a text: a whole number of at most 19 digits is replaced exactly when it
  has at least 13 and is valid (`CardNumbers.ReplacedExactlyWhenValid`), so a valid card number is kept where
  some digit and a space stand before it (`CardNumbers.NeighbourHides`).

## Model

| member | source | states |
|---|---|---|
| HandoffProcess.SafeExactlyWhenApart | src/deepintshield/agentic/managed_execution.py:240-292 | for all engines of a process, with what each may be offered or told: no run has the script both here and on the server if and only if each engine that may be offered server runs has security on and only guarded offers, and no other engine may let the script run here |
| HandoffProcess.SafeExactlyWhenGuarded | src/deepintshield/agentic/managed_execution.py:543-618 | for one engine and one fixed offer: safe on every run if and only if security stays on and the offer has submission ids or no local fallback |
| HandoffProcess.TwoEnginesRunTwice | src/deepintshield/agentic/managed_execution.py:499-618 | with an engine that may run the script here and another that may be offered server runs, with submission ids or not, there is a run on which the script runs on both sides |
| HandoffProcess.UnsecuredRunsTwice | src/deepintshield/agentic/integrations/langgraph.py:412-416 | one engine that may be invoked while security is off, and so does not ask, and may be offered server runs later: a run on both sides |
| HandoffProcess.UnguardedRunsTwice | src/deepintshield/agentic/managed_execution.py:560-618 | an offer without submission ids but with the fallback: a run with a lost answer that ends on both sides |
| HandoffProcess.NeverOnBothSides | src/deepintshield/agentic/managed_execution.py:499-618 | on every run of a process, whatever its other engines do, an engine with guarded offers and security on never has the script run here and what it sent itself started or printed |
| HandoffProcess.NothingSentAfter | src/deepintshield/agentic/managed_execution.py:503-509 | where the condition holds, no engine sends anything once an invocation of any engine ran here |
| HandoffProcess.LogOfARun | src/deepintshield/agentic/managed_execution.py:499-618 | of an engine that gets offers with submission ids only: nothing is sent after a return to local, every request carries the same bytes, and a return after a request follows a job that failed in `prepare` because the managed runtime is required |
| HandoffProcess.PerformIsLocal | src/deepintshield/agentic/managed_execution.py:499-549 | a move of one engine is one of its own session and leaves the sessions of the others as they are |
| HandoffProcess.NextKeeps | src/deepintshield/agentic/managed_execution.py:499-618 | every turn of engines and server keeps what holds of each engine: its invariant, and that it did only what its terms allow |
| HandoffProcess.SessionIsSafe | src/deepintshield/agentic/managed_execution.py:668-682 | the invariant of one engine with a truthful server excludes that what it ran here was started or printed |
| HandoffProtocol.NothingForgotten | src/deepintshield/agentic/managed_execution.py:240-292 | the local flag, a nonempty offer and, with submission ids, the bytes and the job's id of an engine never change once set |
| HandoffProtocol.SettleFacts | src/deepintshield/agentic/managed_execution.py:519-618 | an execution after its probe with submission ids, from any coherent state: when it ends here, what it may send, which job it keeps, and when it may return to local |
| HandoffProtocol.AdvanceKeeps | src/deepintshield/agentic/managed_execution.py:499-618 | the invariant of one engine is kept by every step of every one of its invocations, if security is on and offers are guarded |
| HandoffProtocol.PollingIsBounded | src/deepintshield/agentic/managed_execution.py:723-755 | the requests of one polling call, each an interval long, fit strictly within the clamped timeout, and are at most 1200 |
| HandoffProtocol.PollPosts | src/deepintshield/agentic/managed_execution.py:703-755 | a poll sends only the kept bytes, keeps the job's id, and returns the first job or the last one accepted |
| Handoff.Engine.Capabilities | src/deepintshield/agentic/managed_execution.py:240-292 | the probe under the lock computes the specified new state and answer; a nonempty answer is kept |
| Handoff.Engine.FollowJob | src/deepintshield/agentic/managed_execution.py:723-755 | the polling loop over the clock refines its recursive specification and records each accepted job |
| Handoff.Engine.HandOff | src/deepintshield/agentic/managed_execution.py:519-618 | an execution after its probe refines its specification: new state, requests sent, and how it ends |
| HandoffExits.DelegatedNeverSends | src/deepintshield/agentic/managed_execution.py:519-542 | an invocation in a delegated context sends nothing: it runs here and remembers that exactly with the fallback, nothing handed over and one of the four codes (or where it runs here anyway), and otherwise raises that code and changes nothing |
| HandoffExits.DelegatedLeavesNoPost | src/deepintshield/agentic/managed_execution.py:519-542 | in the log of a process such an invocation never leaves a request |
| HandoffExits.SendsExactlyWhen | src/deepintshield/agentic/managed_execution.py:521-593 | a request is sent if and only if the engine does not run here, the context is not delegated, no hosted program stays here, and there are bytes to send: the kept ones or the package; these are the first request |
| HandoffExits.NotPackaged | src/deepintshield/agentic/managed_execution.py:549-578 | a program that cannot be packaged runs here, and the engine remembers that, exactly with the fallback, nothing handed over and one of the four codes; otherwise its code is raised |
| HandoffExits.FirstFails | src/deepintshield/agentic/managed_execution.py:579-593 | a failed first request, or an answer about another job, raises after one request, with the bytes kept exactly with submission ids |
| HandoffExits.FirstAnswerEnds | src/deepintshield/agentic/managed_execution.py:583-618 | without polling, or when the job is no longer active: one request, and output is printed exactly for a succeeded job with clean output; the program runs here exactly for a run ended for its identity under the fallback; every other status raises its own code |
| HandoffExits.PolledEnds | src/deepintshield/agentic/managed_execution.py:594-618 | with polling of an active job: the first request, the requests of the loop, and the end of the last job or of its error |
| HandoffExits.PollLoops | src/deepintshield/agentic/managed_execution.py:723-755 | each request of the loop is made in time and asks for a job that is still active; without an error the loop ends only when the job is not active or the time is up |
| HandoffExits.KeptJobEnds | src/deepintshield/agentic/managed_execution.py:594-618 | a kept job that is not asked about again: no request, and the end of that job |
| HandoffExits.ProbeEnds | src/deepintshield/agentic/managed_execution.py:252-292 | when the gateway is asked, what each answer leaves, and that only an execution that is refused decides to run here |
| HandoffExits.ExecutionEnds | src/deepintshield/agentic/managed_execution.py:508-515 | an execution that asks runs here exactly when it gets no offer and its probe does not fail, and goes on with the kept offer otherwise |
| Packager.PackageScript | src/deepintshield/agentic/managed_execution.py:364-496 | packaging succeeds exactly when a package within the limits exists; then it is the least import-closed file set with its pins, and each file was opened exactly once |
| Packager.PackageIsUnique | src/deepintshield/agentic/managed_execution.py:364-496 | there is at most one package of a project, so the visiting order does not show |
| Packager.Collect | src/deepintshield/agentic/managed_execution.py:420-464 | the worklist ends on cyclic imports, in any order, with the closure within both limits, or with an error when no file set can be packaged |
| Packager.ReadPython | src/deepintshield/agentic/managed_execution.py:302-328 | a file that is read is a readable source, its text is the decoding of its bytes, and encoded again it has at most the remaining bytes |
| Packager.FollowImports | src/deepintshield/agentic/managed_execution.py:388-452 | the loop over a file's imports adds exactly the local files, external modules and namespaces they resolve to |
| Packager.Pin | src/deepintshield/agentic/managed_execution.py:466-490 | the checks after the worklist pass exactly when every namespace has files, every external module has pins, and there are not too many, and give those pins |
| Packager.NoPackage | src/deepintshield/agentic/managed_execution.py:420-464 | a file that cannot be taken at any point of the worklist means that no package exists |
| PackagerImports.ImportsAreServed | src/deepintshield/agentic/managed_execution.py:388-418 | every import of a packaged file finds what its name stands for: the module, else the package, else files below the directory, with each `__init__.py` around it that exists, and pins for an external name outside the standard library |
| PackagerImports.FilesAreImported | src/deepintshield/agentic/managed_execution.py:388-452 | nothing else is packaged: a file is the entry script or comes with an import of a packaged file |
| PackagerImports.FilesAreRegular | src/deepintshield/agentic/managed_execution.py:302-328 | a packaged file is a regular file reached over no link, without empty or dotted components, and what is sent is its bytes |
| PackagerImports.PinsAreImported | src/deepintshield/agentic/managed_execution.py:474-490 | a pin belongs to an external module that a packaged file imports |
| PackagerImports.ResolveSays | src/deepintshield/agentic/managed_execution.py:388-418 | a name resolves exactly when it is well formed, no directory of that name is a link, and one that stands for nothing is optional or has no top-level name beside the script; with the code of each failure |
| PackagerImports.VisitSays | src/deepintshield/agentic/managed_execution.py:420-452 | a file can be packaged exactly when it can be read, decoded and parsed and each of its imports means a name that resolves |
| PackagerImports.ClosedSays | src/deepintshield/agentic/managed_execution.py:420-464 | the closed sets of the worklist are those that hold the entry script, and with a file every file its imports stand for |
| Utf8.DecodeOfEncode | src/deepintshield/streaming.py:31-36 | encoding a text and decoding it gives it back |
| Utf8.EncodeOfDecode | src/deepintshield/streaming.py:31-36 | bytes that decode are the encoding of what they decode to |
| SseLines.LineReader.Next | src/deepintshield/streaming.py:39-78 | for every way of cutting the bytes into chunks, each resumption yields the next line of the recursive CR/LF/CRLF definition of the whole, or its one error or end, with a buffer within the limit |
| SseLines.LineReader.constructor | src/deepintshield/streaming.py:39-54 | a fresh reader has all lines of the concatenated chunks ahead |
| ChatEvents.RunIsMeaning | src/deepintshield/streaming.py:169-246 | the line machine yields exactly what the blocks between blank lines mean |
| ChatEvents.ObjectsBeforeDone | src/deepintshield/streaming.py:169-306 | the objects are those of the blocks before the first that does not pass, and the end is normal exactly when that block is the terminal event |
| ChatEvents.JoinSize | src/deepintshield/streaming.py:219-246 | adding a data line grows the UTF-8 length of the joined data by the line and one newline |
| ChatStream.Stream.Next | src/deepintshield/streaming.py:169-246 | the iterator yields the next object of the whole body's meaning, or ends as it does, and stays closed |
| ChatStream.Stream.Accept | src/deepintshield/streaming.py:203-243 | the running byte count is the UTF-8 length of the joined pending data and never above the limit; a line past it closes the stream |
| ChatStream.Stream.DecodePending | src/deepintshield/streaming.py:248-306 | the pending event is dispatched once and cleared, and every failure closes the stream |
| ChatStream.Stream.Iterate | src/deepintshield/streaming.py:156-246 | a loop over the stream sees the first objects in order and leaves the stream closed whichever way it ends |
| ChatStream.Stream.Close | src/deepintshield/streaming.py:328-337 | closing releases the response once and drops what is pending |
| ChatRoundTrip.RoundTrip | src/deepintshield/streaming.py:39-306 | events with payloads without carriage returns, named or not, printed tightly or not with any one terminator, and read under any chunking, reach the decoder one by one, in order; blank, terminal, too large, malformed and marked ones and those whose name says "error" act as they do alone, and nothing is given of an event that breaks off |
| ChatRoundTrip.PrintedLines | src/deepintshield/streaming.py:39-78 | splitting printed lines gives the lines back, up to the first that is too long |
| ChatRoundTrip.OpenLine | src/deepintshield/streaming.py:54-78 | bytes after the last terminator are read as a line at the end of the input if they are text and not too long, and a transport failure takes them away |
| ChatRoundTrip.BadLine | src/deepintshield/streaming.py:64-71 | a line that is not UTF-8 ends the reading after the lines before it |
| ChatRoundTrip.OtherLine | src/deepintshield/streaming.py:228-246 | comments, `id`, `retry` and unknown fields change nothing |
| ChatRoundTrip.MarkedLine | src/deepintshield/streaming.py:215-217 | a byte order mark before the first line is dropped |
| ChatText.LowerSaysError | src/deepintshield/streaming.py:290-292 | a name trims and lowers to "error" exactly when it is that word in small or capital letters between white space |
| ChatText.StripSays | src/deepintshield/streaming.py:257-263 | a text trims to a word exactly when it is the word between white space |
| WorkerProtocol.WorkerIsSafe | src/deepintshield/agentic/managed_remote.py:699-796 | on every run a worker has at most one program, only after a grant that was not withdrawn, and answers say truthfully whether it started |
| WorkerProtocol.WithdrawnNeverStarts | src/deepintshield/agentic/managed_remote.py:455-483 | after the gateway withdrew a start no request with that token ever has a program |
| WorkerProtocol.RefusedNeverStarts | src/deepintshield/agentic/managed_remote.py:699-796 | a request answered that it did not start never gets a program |
| WorkerProtocol.EndsInExit | src/deepintshield/agentic/managed_remote.py:742-838 | from every state, whatever turns an accepted request meets from there on, its process exits after a bounded number of the request's own steps |
| WorkerProtocol.FewPhases | src/deepintshield/agentic/managed_remote.py:742-838 | on any run, whatever it meets, an accepted request makes no more moves than its phase and its looks at the clock allow |
| WorkerProtocol.NeverStuck | src/deepintshield/agentic/managed_remote.py:742-838 | until the process has exited the request can go on with every turn it may meet |
| WorkerProtocol.StopIsSignalYieldLeave | src/deepintshield/agentic/managed_remote.py:622-630 | the three protocol steps of a stop in a row do to the process what `Worker.Server.Stop` does to the object |
| WorkerProtocol.StoppedExits | src/deepintshield/agentic/managed_remote.py:622-630 | from every reachable state a process that was told to stop exits: by the rest of its stop when no request holds it, and otherwise by the end of the request that does, whatever turns that meets |
| Worker.TurnsDecide | src/deepintshield/agentic/managed_remote.py:742-838 | which turn decides what: a program is started exactly on a timely yes while not stopping and a launch that works, ends exactly as cited, and its outcome is told unless the caller left first |
| Worker.Server.Claim | src/deepintshield/agentic/managed_remote.py:618-620 | the claim of the protocol: the first caller wins and nobody wins again |
| Worker.Server.Stop | src/deepintshield/agentic/managed_remote.py:622-630 | a stop of an unclaimed process claims and finishes it and it exits; one of a claimed process only signals, and exits it if it is finished |
| Worker.StartGranted | src/deepintshield/agentic/managed_remote.py:455-483 | a start is granted only on a yes in time to a question asked while not stopping, and the wait ends by itself |
| Worker.Execute | src/deepintshield/agentic/managed_remote.py:742-796 | an accepted request follows the edges to its closing answer, which the first thing that stands in its way decides; a program runs exactly after a grant and a launch, and was then sent the kill |
| Worker.Supervise | src/deepintshield/agentic/managed_remote.py:798-838 | the loop over the clock ends by itself, within the looks that fit in the timeout; the group is sent the kill whichever way it ends; there is no answer exactly when the caller left first, or after an error |
| Worker.EdgesAreTurns | src/deepintshield/agentic/managed_remote.py:742-838 | the edges between the phases are exactly what some turn leads to |
| Staging.ParseFiles | src/deepintshield/agentic/managed_remote.py:148-223 | the checks accept exactly the file sets of the contract: relative names, limits, a Python entry point, and no file that is also a directory of another |
| Staging.Stage | src/deepintshield/agentic/managed_remote.py:295-330 | an allowed file set never gets in its own way: the exact tree with its modes and owner is made if and only if the system fails none of its paths |
| Staging.Place | src/deepintshield/agentic/managed_remote.py:303-316 | placing one file adds exactly it and its missing directories |
| Staging.AllowedIsApart | src/deepintshield/agentic/managed_remote.py:205-223 | what the checks accept is what staging needs, and the bytes written decode to the sources sent |
| Staging.SplitOfJoin | src/deepintshield/agentic/managed_remote.py:218-222 | components without slashes survive joining and splitting, so prefixes can be looked up by name |
| RemoveTree.RemoveRemaining | src/deepintshield/agentic/managed_remote.py:346-395 | the walk with one open directory and a trail ends; it is left early exactly when it comes to a directory it cannot list, ask for or leave; otherwise it leaves exactly the entries that cannot go and the directories above them, and nothing if no operation fails |
| RemoveTree.ExactWhenNotStopped | src/deepintshield/agentic/managed_remote.py:346-395 | where the directory itself could go, what is left is what recursion leaves if and only if no such directory is come to |
| RemoveTree.RootIsThere | src/deepintshield/agentic/managed_remote.py:346-395 | a walk left early leaves the directory itself, and never removed anything that should stay |
| RemoveTree.UplessStays | src/deepintshield/agentic/managed_remote.py:381-386 | one empty directory whose parent cannot be opened: recursion leaves nothing, the walk leaves both |
| RemoveTree.StaysByRecursion | src/deepintshield/agentic/managed_remote.py:346-395 | what is left is what recursive deletion leaves: a directory stays exactly when its own removal fails or a child stays |
| RemoveTree.FileStays | src/deepintshield/agentic/managed_remote.py:398-411 | a file outside of closed directories stays exactly when it cannot be told or removed |
| RemoveTree.Empty | src/deepintshield/agentic/managed_remote.py:398-411 | emptying a directory unlinks its removable files and returns its directories, each once, passing over what cannot be told; it fails exactly when the listing does, and then changes nothing |
| RemoveTree.EnterTurn | src/deepintshield/agentic/managed_remote.py:366-380 | entering a directory keeps the walk's invariant and leaves less unseen |
| RemoveTree.LeaveTurn | src/deepintshield/agentic/managed_remote.py:381-393 | leaving one keeps the invariant for the directory above |
| Output.Bounded | src/deepintshield/agentic/managed_remote.py:521-542 | the result is the longest whole-character prefix within the byte limit and within `3 * limit + 2` JSON characters; ordinary text never reaches the second cut |
| Output.CutBytes | src/deepintshield/agentic/managed_remote.py:521-528 | cutting the encoded bytes anywhere and decoding with errors ignored keeps exactly the characters that fit |
| Output.OrdinaryIsShort | src/deepintshield/agentic/managed_remote.py:529-542 | text without other control characters or DEL takes at most three JSON characters for each byte |
| Output.Capture.Drain | src/deepintshield/agentic/managed_remote.py:545-570 | a pipe is read to its end or an error, and the first `limit` bytes of what it gave are kept |
| Output.Capture.Keep | src/deepintshield/agentic/managed_remote.py:566-570 | one chunk of any size: what fits is kept, in order |
| CredentialProtocol.CredentialsAreSound | src/deepintshield/agentic/engine.py:757-872 | on every run: provisional and built credentials are each absent or the active one; a call without a token is excused by security off, an answer that needs no agent, or an answer marked optional, if and only if it did not read a credential that was gone, which takes another thread between its test and its read; at most one re-read and two token requests |
| CredentialProtocol.ResetBetweenReads | src/deepintshield/agentic/engine.py:840-841 | a reset between the two unlocked reads: the call sends no token without an excuse |
| CredentialProtocol.TakenAwayBy | src/deepintshield/agentic/engine.py:807-916 | another thread takes a credential away exactly by a reset, or by ending the offer it was built from |
| CredentialProtocol.SuppliedSendsOrFails | src/deepintshield/agentic/engine.py:1071-1103 | a call that takes a credential the application supplied ends in its token or an error, without a re-read, whatever other threads do |
| CredentialOffers.CredentialsTellHistory | src/deepintshield/agentic/engine.py:807-916 | on every run the active, built and provisional credentials and the keys set aside are what the builds with their answers, overrides, resets, refusals and ended offers say; the provisional one is the last that was built from a provisional offer to a pending registration, as long as the offer stands |
| CredentialOffers.RefusalRereadsExactlyWhen | src/deepintshield/agentic/engine.py:1756-1803 | on every run a refused token leads to a second reading if and only if it is the first of its call, refused at a key endpoint, and its key is that of the standing offer, or was set aside and is not active |
| CredentialOffers.ApprovalIsNoticed | src/deepintshield/agentic/engine.py:1071-1103 | a run from a fresh engine for every offer and every later answer: the offered key is refused, the settings are read again, and the call is sent with a credential of the new answer, after two token requests and one re-read |
| CredentialOffers.EndedOfferReadsPending | src/deepintshield/agentic/engine.py:1701-1737 | an ended offer reads as pending for a quarter of a second for every lookup of every thread, and the gateway is asked after that |
| CredentialOffers.LookupAsks | src/deepintshield/agentic/engine.py:757-796 | when a lookup uses the cached answer, the remembered error, or the gateway, and what each leaves |
| CredentialOffers.CredentialIsGiven | src/deepintshield/agentic/engine.py:837-872 | when there is a credential, when an answer excuses that there is none, and under which key one is built |
| CredentialOffers.FailureIsExcused | src/deepintshield/agentic/engine.py:1853-1896 | the failure of a token is excused exactly when its credential was built and the cached answer is optional |
| CredentialOffers.FailureIsRaised | src/deepintshield/agentic/engine.py:1739-1752 | what is not excused is raised, unless it is the key of the standing offer that is not enrolled and not usable, which reads as pending |
| CredentialHistory.AnswerWithoutCredentialIsRecent | src/deepintshield/agentic/engine.py:757-866 | on every run, a call that ends without a credential acts on an answer fetched at most an hour before |
| CredentialHistory.SparedByOldAnswer | src/deepintshield/agentic/engine.py:1846-1869 | where a credential was built, its failure is excused by an optional answer of any age: a run for every age |
| CredentialHistory.SecondAnswerIsNew | src/deepintshield/agentic/engine.py:1756-1816 | on every run, a call that reads the settings again acts on an answer fetched after a refused key was set aside |
| CredentialHistory.FailedBuildsAreApart | src/deepintshield/agentic/engine.py:1835-1910 | within a minute of a failed build, under one unchanged optional answer and whatever other threads do, it is tried again if and only if there is no credential and the last failure remembered is under another answer |
| CredentialHistory.LateRestRetries | src/deepintshield/agentic/engine.py:1892-1896 | a run from a fresh engine: a call remembers its failure under an earlier answer after a build failed under the next, and the build fails again at once |
| CredentialProtocol.OthersKeep | src/deepintshield/agentic/engine.py:807-916 | overrides, resets, refreshes, set-asides and withdrawals keep the invariant, and never make a foreign credential the engine's own |
| CredentialProtocol.GoKeepsCall | src/deepintshield/agentic/engine.py:1071-1103 | each step of a call keeps its invariant |
| Credential.Engine.CredentialInfo | src/deepintshield/agentic/engine.py:757-796 | cached for an hour, failures for a quarter of a second, as specified |
| Credential.Engine.AgentCredential | src/deepintshield/agentic/engine.py:837-872 | the active credential, or one built from the answer, with the optional and the provisional case |
| Credential.Engine.SetAsideRefused | src/deepintshield/agentic/engine.py:1756-1803 | only a key of the engine's own offer, refused at enrolment or challenge, is set aside |
| Credential.Engine.OfferPending | src/deepintshield/agentic/engine.py:1701-1737 | an offer goes with its key, and its answer is remembered as pending |
| Credential.Engine.AgentToken | src/deepintshield/agentic/engine.py:1027-1103 | alone, the two-pass loop takes the steps of a call in order, with what it is given in its order, and never enters a third pass |
| LifecycleProtocol.WorkersDrain | src/deepintshield/agentic/execution.py:322-390 | from every reachable state the workers can finish all queued work with no wait expiring: they cannot deadlock |
| LifecycleProtocol.WaitsForStarting | src/deepintshield/agentic/execution.py:366-378 | a worker that waits for a start waits for one another worker has in hand |
| LifecycleProtocol.RunIsSound | src/deepintshield/agentic/execution.py:86-190 | on every run, with scopes left in any order: one frame for each engine on a stack, no job queued twice, and no start ending after a finish sent without an expired wait |
| ScopeOrder.ExactExactlyWhenOrderly | src/deepintshield/agentic/execution.py:147-190 | on every run, each stack is at every moment the one its context was copied with and the frames of its open scopes, if and only if own scopes are left innermost first; then it is restored when they are left |
| ScopeOrder.RestoredExactlyWhenLastIsOuter | src/deepintshield/agentic/execution.py:147-190 | on every run, in any order: a context that left all its own scopes has the stack it began with if and only if the one left last was entered on that stack |
| ScopeOrder.InterleavedStreams | src/deepintshield/agentic/integrations/langgraph.py:551-557 | a stream of each of two engines in one context, each ended in the order it began: all scopes are left, the finished frame of the first stays on the stack, and the next run of its engine there is not reported |
| ScopeOrder.ReuseOutlivesFrame | src/deepintshield/agentic/enforcement.py:661-666 | two streams of one engine: a frame finishes while a scope that uses it again is open |
| ScopeOrder.LeftExact | src/deepintshield/agentic/execution.py:183-184 | leaving one scope keeps the stack exact if and only if it reuses a frame or has no own scope above it |
| LifecycleProtocol.StepKeeps | src/deepintshield/agentic/execution.py:118-390 | every step of contexts, scopes and workers keeps the invariant, whichever scope of a context is left |
| LifecycleProtocol.PlainWorks | src/deepintshield/agentic/execution.py:322-390 | each step of a worker reduces the work left |
| LifecycleReports.EveryExecutionIsReported | src/deepintshield/agentic/execution.py:118-390 | on every run with room in the queue, once the workers rest, the start of every execution was attempted and a finish was sent for exactly those whose scope was left |
| LifecycleReports.StepQueues | src/deepintshield/agentic/execution.py:250-303 | with room, a new frame queues its start, its own scope queues its finish, and nothing else is queued |
| Lifecycle.Telemetry.CurrentExecution | src/deepintshield/agentic/execution.py:86-94 | the search from the top of the stack finds the innermost frame of the engine |
| Lifecycle.Telemetry.Enter | src/deepintshield/agentic/execution.py:118-166 | an active frame is used again; otherwise a new one is pushed and its start queued, or counted as delivered |
| Lifecycle.Telemetry.Exit | src/deepintshield/agentic/execution.py:167-190 | any open scope of a context can be left: a frame's own scope queues its finish and resets the stack to what it found |
| Lifecycle.Telemetry.Dispatch | src/deepintshield/agentic/execution.py:284-303 | a job is queued exactly when there is room and the process is not ending |
| Lifecycle.Telemetry.TakeJob | src/deepintshield/agentic/execution.py:322-333 | a worker takes the oldest job |
| Redaction.RescanFindsNothing | src/deepintshield/agentic/obligations.py:94-121 | scanning the result again changes nothing and finds no valid card number |
| Redaction.RedactTwice | src/deepintshield/agentic/obligations.py:114-121 | redacting is idempotent whatever counts as a digit and as valid |
| Redaction.LuhnValid | src/deepintshield/agentic/obligations.py:99-111 | the parity loop from the left agrees with the right-to-left definition |
| Redaction.OneChangeShows | src/deepintshield/agentic/obligations.py:99-111 | changing any one digit of a valid number makes it invalid |
| Redaction.OneDigitFits | src/deepintshield/agentic/obligations.py:99-111 | for any other digits, exactly one digit at a place makes the number valid |
| Redaction.RedactText | src/deepintshield/agentic/obligations.py:94-121 | the replacing loop computes the scan that takes the longest candidate of 13 to 19 digits at each place |
| CardNumbers.ReplacedExactlyWhenValid | src/deepintshield/agentic/obligations.py:94-121 | a whole number of up to 19 digits, printed with or without single separators between texts that do not go on with it, is replaced if and only if it has at least 13 and is valid, and the texts are scanned by themselves |
| CardNumbers.LongRunIsKept | src/deepintshield/agentic/obligations.py:94-94 | a run of more than 19 digits is kept |
| CardNumbers.NeighbourHides | src/deepintshield/agentic/obligations.py:94-121 | for every valid card number of 13 to 18 digits there is a digit which, with a space before the number, keeps it from being replaced |
| CardNumbers.CheckSays | src/deepintshield/agentic/obligations.py:99-111 | a number is valid exactly if the sum of its digits, every second one from the right doubled and less nine from five on, is a multiple of ten |
| Obligations.RedactThenBind | src/deepintshield/agentic/obligations.py:233-280 | without variadic parameters, redacting a call that binds and then binding it equals binding and then redacting |
| Obligations.SpellingsAgree | src/deepintshield/agentic/obligations.py:233-280 | two spellings of one call deliver identical arguments |
| Obligations.ApplyToCall | src/deepintshield/agentic/obligations.py:233-280 | positional arguments are named, redacted and written back in place, or left alone where they cannot be named |
| Obligations.ApplyObligations | src/deepintshield/agentic/obligations.py:219-230 | every argument is what the known obligations make of it by its name, one after the other, and no argument is added or lost |
| Obligations.RedactSecrets | src/deepintshield/agentic/obligations.py:124-144 | redaction by name and then by value, in place, is pointwise |
| ObligationPromises.NamedIsMarked | src/deepintshield/agentic/obligations.py:209-230 | an argument that some obligation names is the mark in the end, whatever the other obligations are and in whatever order |
| ObligationPromises.CardsAreGone | src/deepintshield/agentic/obligations.py:169-177 | with the obligation about card numbers anywhere in the list, redacting the delivered text again changes nothing |
| ObligationPromises.SecretsAreGone | src/deepintshield/agentic/obligations.py:134-144 | with the obligation about secrets, no delivered text looks like one, unless card numbers are taken out of it later |
| ObligationPromises.OthersAreLeft | src/deepintshield/agentic/obligations.py:219-230 | an argument that no obligation has to do with is delivered as it is |
| GeminiCache.RegistryIsSound | src/deepintshield/_gemini_cache.py:136-207 | on every interleaving entries and pending are disjoint, a prefix has one creation, and a name is given out only for its own prefix and strictly before it expires |
| GeminiCache.PendingIsInFlight | src/deepintshield/_gemini_cache.py:170-207 | pending are exactly the creations under way, if and only if no creation was refused by the pool, gave an empty name or was aborted |
| GeminiCache.ClaimsAreLost | src/deepintshield/_gemini_cache.py:184-207 | each of these happens: a run that loses a claim by a refusal, and one by an empty name or an abort |
| GeminiCache.LostForGood | src/deepintshield/_gemini_cache.py:184-207 | a lost claim is never released |
| GeminiCache.FailureFreesSlot | src/deepintshield/_gemini_cache.py:165-207 | after a failed creation the prefix can be claimed again |
| GeminiCache.CacheIsServed | src/deepintshield/_gemini_cache.py:138-168 | on every run a created cache is given out for its prefix by every lookup until it expires, whatever happens meanwhile, and by none after that |
| GeminiCache.ClaimableExactlyWhenFree | src/deepintshield/_gemini_cache.py:170-182 | a prefix can be claimed exactly when it has no entry, no creation and no lost claim |
| GeminiCache.Manager.Attach | src/deepintshield/_gemini_cache.py:211-266 | the caller's cache wins, then the active one; a creation is claimed exactly when neither exists, none is pending and the prefix is large enough |
| PromptCache.InjectTwice | src/deepintshield/_prompt_cache.py:64-145 | injecting markers is idempotent |
| PromptCache.EraseInject | src/deepintshield/_prompt_cache.py:79-145 | erasing the added markers, and undoing the promotion of a string prompt, gives back the body |
| PromptCache.AtMostThree | src/deepintshield/_prompt_cache.py:79-145 | at most one marker for each place asked for is added, so at most three |
| PromptCache.Request.InjectAnthropic | src/deepintshield/_prompt_cache.py:79-145 | the in-place injection computes the specified body, and leaves a body with caller's markers alone |
| PromptCache.Request.Configured | src/deepintshield/_prompt_cache.py:93-109 | the search finds a caller's marker exactly when one is on the body, a block or a block of a message |
| PromptCachePlaces.MarkersArePlaced | src/deepintshield/_prompt_cache.py:111-145 | without caching of the caller, each place asked for has the marker on its last block (a text prompt becomes one marked block; only the last content of the last message of the user, a text of at least 12000 characters), and everything else is as it was |
| Identity.SubjectIsNormalForm | src/deepintshield/agentic/identity.py:104-149 | deriving a subject from a subject changes nothing, for every value and kinds |
| Identity.IdShape | src/deepintshield/agentic/identity.py:128-149 | a derived id is a slug of at most 96 characters: the identifier itself, or a stem and its digest |
| Identity.SharedExactlyWhenSpelled | src/deepintshield/agentic/identity.py:128-154 | identifiers with different digests share an id exactly when one is kept verbatim and is the stem and digest of the other |
| Identity.EveryDigestCanBeSpelled | src/deepintshield/agentic/identity.py:128-154 | for every identifier that carries a digest there is another with the same id: that id itself |
| Identity.SubjectsDiffer | src/deepintshield/agentic/identity.py:128-154 | two identifiers that both carry digests, and different ones, never share a subject, whatever the kinds |
| Identity.SlugifyMakesSlug | src/deepintshield/agentic/identity.py:97-101 | a slug is empty or lower-case letters and digits in groups with single dashes between |
| IdentityForms.SlugHasTheGroups | src/deepintshield/agentic/identity.py:97-101 | a slug is the groups of letters and digits of the trimmed lower-case text, in order, with single dashes between |
| IdentityForms.IdIs | src/deepintshield/agentic/identity.py:138-149 | an id is the identifier itself if that is a slug of at most 96 characters, and otherwise the digest after "id" or after the longest readable stem of at most 63 |
| IdentityForms.TypedSubjectIs | src/deepintshield/agentic/identity.py:116-124 | a value that begins with a type keeps the type, and the rest of it where that is a slug |
| IdentityForms.OtherSubjectIs | src/deepintshield/agentic/identity.py:125-137 | every other value is of the kind given, a service account only where the kind says so |
| SubjectCache.StaysWhileFew | src/deepintshield/agentic/identity.py:251-264 | a stored subject is found as long as fewer than 512 other keys are used after it |
| SubjectCache.HitIsLastStored | src/deepintshield/agentic/identity.py:251-264 | a hit gives the subject stored last for the key |
| SubjectCache.RunIsBounded | src/deepintshield/agentic/identity.py:259-264 | on every run keys are distinct and there are at most 512 |
| SubjectCache.Cache.CachePut | src/deepintshield/agentic/identity.py:259-264 | the entry becomes the most recent and the oldest go |
| SubjectCache.Cache.CacheGet | src/deepintshield/agentic/identity.py:251-256 | a hit becomes the most recent |
| ExceptionWalk.WalkExceptions | src/deepintshield/mcp/_errors.py:293-314 | the loop with a stack lists what depth-first recursion lists, in its order, on any graph |
| ExceptionWalk.ListsAllExactlyWhenSmall | src/deepintshield/mcp/_errors.py:293-314 | for trees and every nesting in layers: everything held is listed if and only if there are at most 64, none deeper than eight, and none held only behind 64 others |
| ExceptionWalk.SmallIsListed | src/deepintshield/mcp/_errors.py:293-314 | also with sharing at different depths: at most 64 without cycles, no deeper than eight, in groups of at most 64, are all listed |
| ExceptionWalk.ListStaysWithin | src/deepintshield/mcp/_errors.py:293-314 | on any graph nothing is listed but the error and what is held below it |
| ExceptionWalk.TooDeep | src/deepintshield/mcp/_errors.py:305-306 | ten exceptions, one within the other, are not all listed |
| ExceptionWalk.TooMany | src/deepintshield/mcp/_errors.py:298-298 | a group of 64 is not listed with all of them |
| ExceptionWalk.TooWide | src/deepintshield/mcp/_errors.py:311-311 | one exception 64 times and then another: the other is not listed |
| ExceptionWalk.TooLate | src/deepintshield/mcp/_errors.py:300-314 | ten exceptions, one of them held at depth eight first and at depth one again: what it holds is not listed |
| ExceptionWalk.SoonEnough | src/deepintshield/mcp/_errors.py:300-314 | the same exceptions in the other order are all listed |
| ExceptionWalk.VisitLists | src/deepintshield/mcp/_errors.py:293-314 | each exception is listed once and there are at most 64 |

## Left out

- HTTP, TLS, sockets, subprocesses and signals: their results are inputs of the models.
- Hashes and key proofs: a digest is any function to 32 hexadecimal digits.
- JSON and Python parsing, package metadata and the file system: an arbitrary partial decoder, an abstract import relation, abstract trees.
- Handoff: the job-id pattern, the response size, `_limit` and the status codes of single responses are part of whether an answer is accepted; printed output is not cleaned; `wait_for_worker_approval` is not modelled. Invocations through integrations that never hand over are ones that do not ask.
- Chat stream: the bounded body of an error response (`_bounded_response_payload`) and reading after a JSON object are not modelled; bytes arrive without HTTP errors other than one at the end.
- Worker: authorization, request framing, the start URL and the child environment; joining the readers after the kill, and the exit code and output in an outcome; the claim of a stop and the event it sets are one step.
- RemoveTree.RemoveRemaining: the disk changes only through the walk, so `..` is always the directory above once it can be opened, and that test is not modelled; changing modes before entering is part of whether a directory can be entered; descriptors are closed without error.
- Staging.Stage: a write that fails leaves no part of its file; names are texts of Unicode scalar values, so lone surrogates do not occur; the directory is removed by `RemoveTree`.
- Credential: the best-effort path of transparent traffic is covered as other activity, its own results are not stated; the unlocked look at the cached answer in a re-read, and the several fields read to tell whether a credential rests, are one step each; registration memory (`_note_registration`), log lines and key thumbprints are not modelled.
- Lifecycle: payloads of events; a wait that expires is a step that may happen at any time; a queued start ends whatever it meets; a scope is left in the context it was entered in; the session and the security state that scopes also bind and reset are not modelled.
- Redaction: a number of more than 19 digits with separators between them is covered by the scan and by `RedactTwice` only.
- Obligations: variadic signatures are modelled, but what is proved of the spelling of calls is for signatures without them, because the code leaves arguments it cannot name alone.
- GeminiCache: direct calls of `remember` and `forget` from outside of a creation, and how the hash of a prefix is made.
- PromptCache: the order of keys in a body, the OpenAI key and the HTTP hook around the injection.
- Identity: lower-casing beyond subjects themselves is any function; resolution over the network is not modelled.
- RAG filtering, header merging, task receipts, the enforcement gate, MCP evidence and the manifest: easier members, or reflection over libraries that are not shown.
